/**
 * The browser's signaling channel: a wrapper over one WebSocket that keeps,
 * per event name, the list of listeners registered for it, calls them in
 * registration order when the socket reports that event, and sends
 * envelopes to the relay.
 */
module Channel {
  import opened Envelopes

  /** A registered listener; the model keeps a name where the browser keeps a function. */
  datatype Handler = Handler(name: string)

  /** What the socket reports: `open`, `error`, `close`, or one received envelope. */
  datatype Event = OpenEvent | ErrorEvent | CloseEvent | MessageEvent(data: Envelope)

  /** One call of one listener with one event. */
  datatype Invocation = Invocation(handler: Handler, event: Event)

  type Handlers = map<string, seq<Handler>>

  /** The listeners of event `name`, none when the name has no entry. */
  function HandlersOf(handlers: Handlers, name: string): seq<Handler> {
    if name in handlers then handlers[name] else []
  }

  /** `on(name, h)`: `h` goes to the end of `name`'s list, which is created empty first if absent. */
  function Register(handlers: Handlers, name: string, h: Handler): (r: Handlers)
    ensures HandlersOf(r, name) == HandlersOf(handlers, name) + [h]
  {
    handlers[name := HandlersOf(handlers, name) + [h]]
  }

  /** `on(name, h)` leaves the list of every other event as it was and adds only `name` as a key. */
  lemma RegisterLeavesOthers(handlers: Handlers, name: string, h: Handler)
    ensures forall n :: n != name ==> HandlersOf(Register(handlers, name, h), n) == HandlersOf(handlers, n)
    ensures Register(handlers, name, h).Keys == handlers.Keys + {name}
  {
  }

  /** Calling each listener of `hs` once with `e`, in list order. */
  function Invocations(hs: seq<Handler>, e: Event): (r: seq<Invocation>)
    ensures |r| == |hs|
    ensures forall k :: 0 <= k < |hs| ==> r[k] == Invocation(hs[k], e)
  {
    if hs == [] then [] else [Invocation(hs[0], e)] + Invocations(hs[1..], e)
  }

  /** Each listener runs as many times as it is registered: there is no deduplication. */
  lemma {:induction false} InvocationCount(hs: seq<Handler>, h: Handler, e: Event)
    ensures multiset(Invocations(hs, e))[Invocation(h, e)] == multiset(hs)[h]
  {
    if hs != [] {
      InvocationCount(hs[1..], h, e);
      assert multiset(hs)[h] == multiset([hs[0]])[h] + multiset(hs[1..])[h] by {
        assert hs == [hs[0]] + hs[1..];
      }
      assert multiset(Invocations(hs, e))[Invocation(h, e)]
             == multiset([Invocation(hs[0], e)])[Invocation(h, e)] + multiset(Invocations(hs[1..], e))[Invocation(h, e)];
    }
  }

  /** Registering the same listener twice makes the next dispatch of that event run it twice more. */
  lemma RegisterTwiceRunsTwice(handlers: Handlers, name: string, h: Handler, e: Event)
    ensures multiset(Invocations(HandlersOf(Register(Register(handlers, name, h), name, h), name), e))[Invocation(h, e)]
            == multiset(HandlersOf(handlers, name))[h] + 2
  {
    var twice := HandlersOf(Register(Register(handlers, name, h), name, h), name);
    assert twice == HandlersOf(handlers, name) + [h] + [h];
    InvocationCount(twice, h, e);
  }

  lemma InvocationsAppend(hs: seq<Handler>, h: Handler, e: Event)
    ensures Invocations(hs + [h], e) == Invocations(hs, e) + [Invocation(h, e)]
  {
    var l, r := Invocations(hs + [h], e), Invocations(hs, e) + [Invocation(h, e)];
    assert |l| == |r|;
    forall k | 0 <= k < |l| ensures l[k] == r[k] {
      if k < |hs| { assert (hs + [h])[k] == hs[k]; }
    }
  }

  class SignalingChannel {
    /** The listener lists, by event name. */
    var handlers: Handlers
    /** The envelopes handed to the socket, in order. */
    var outbox: seq<Envelope>
    /** The listener calls made so far, in order. */
    var invoked: seq<Invocation>

    /** A new channel: no listener yet, nothing sent, nothing dispatched. */
    constructor ()
      ensures handlers == map[] && outbox == [] && invoked == []
    {
      handlers, outbox, invoked := map[], [], [];
    }

    /** `handleEvent`: every listener of `name` is called once with `e`, in registration order. */
    method HandleEvent(name: string, e: Event)
      modifies this`invoked
      ensures invoked == old(invoked) + Invocations(HandlersOf(handlers, name), e)
    {
      if name in handlers {
        var hs := handlers[name];
        var i := 0;
        while i < |hs|
          invariant 0 <= i <= |hs|
          invariant invoked == old(invoked) + Invocations(hs[..i], e)
        {
          ghost var done := Invocations(hs[..i], e);
          assert hs[..i + 1] == hs[..i] + [hs[i]];
          InvocationsAppend(hs[..i], hs[i], e);
          invoked := invoked + [Invocation(hs[i], e)];
          assert invoked == old(invoked) + (done + [Invocation(hs[i], e)]);
          i := i + 1;
        }
        assert hs[..i] == hs;
      }
    }

    /** `on`: appends `h` to the listeners of `name`. */
    method On(name: string, h: Handler)
      modifies this`handlers
      ensures handlers == Register(old(handlers), name, h)
    {
      if name !in handlers {
        handlers := handlers[name := []];
      }
      handlers := handlers[name := handlers[name] + [h]];
    }

    /** `send`: exactly one frame per call, whatever the socket's state. */
    method Send(data: Envelope)
      modifies this`outbox
      ensures outbox == old(outbox) + [data]
    {
      outbox := outbox + [data];
    }
  }
}
