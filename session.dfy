/**
 One relay session: the client socket accepted by the proxy, the upstream
 socket it opens, the pending-message queue, and one method per event the
 two sockets deliver. `toUpstream` and `toClient` record, in order, every
 payload passed to `send()` on each socket.
 */
module Relay {
  import opened Js
  import opened Envelope
  import opened Tools

  /** A WebSocket's `readyState`. */
  datatype ReadyState = Connecting | Open | Closing | Closed

  /** The state `socket.close()` leaves a socket in: a closed socket stays closed, any other starts closing. */
  function AfterClose(s: ReadyState): ReadyState
  {
    if s == Closed then Closed else Closing
  }

  /** Closing twice is closing once. */
  lemma CloseIdempotent(s: ReadyState)
    ensures AfterClose(AfterClose(s)) == AfterClose(s)
  {
  }

  /** How an event handler ended: it returned, or an exception escaped it. */
  datatype HandlerResult = Returned | Aborted

  class Session {
    var client: ReadyState
    var upstream: ReadyState
    var queue: seq<Payload>        // `messageQueue`
    var listening: bool            // the client `message` listener is installed
    var toUpstream: seq<Payload>
    var toClient: seq<Payload>

    /**
     The states a session can reach. The client listener is installed by
     the upstream `open` handler, the only place upstream becomes `Open`: the
     listener exists only once upstream has left `Connecting`, it exists
     whenever upstream is open, and only that listener ever queues.
     */
    ghost predicate Valid()
      reads this
    {
      && client != Connecting
      && (listening ==> upstream != Connecting)
      && (upstream == Open ==> listening)
      && (queue != [] ==> listening)
    }

    /** A client is accepted: it is open, and the upstream socket starts connecting with an empty queue. */
    constructor ()
      ensures Valid()
      ensures client == Open && upstream == Connecting
      ensures queue == [] && !listening && toUpstream == [] && toClient == []
    {
      client, upstream := Open, Connecting;
      queue, listening := [], false;
      toUpstream, toClient := [], [];
    }

    /**
     Upstream `open`: the queue is drained upstream and the client listener
     is installed. In every reachable state the queue is empty at this
     point, so the drain sends nothing.
     */
    method UpstreamOpen()
      requires Valid() && upstream == Connecting
      modifies this
      ensures Valid()
      ensures upstream == Open && listening && queue == []
      ensures toUpstream == old(toUpstream) + old(queue)
      ensures old(queue) == [] && toUpstream == old(toUpstream)
      ensures client == old(client) && toClient == old(toClient)
    {
      upstream := Open;
      Drain();
      listening := true;
    }

    /** The drain loop: every queued payload is sent upstream once, in FIFO order, and the queue ends empty. */
    method Drain()
      modifies this`queue, this`toUpstream
      ensures queue == [] && toUpstream == old(toUpstream) + old(queue)
    {
      while |queue| > 0
        invariant toUpstream + queue == old(toUpstream) + old(queue)
        decreases |queue|
      {
        var message := queue[0];
        queue := queue[1..];
        toUpstream := toUpstream + [message];
      }
    }

    /**
     Client `message`. Without a listener the payload is lost. With one,
     while upstream is open a payload that passes the `'setup' in` check is
     sent upstream unchanged, with or without a `setup` key, and any other
     is dropped by the `catch`; while upstream is not open it is queued.
     */
    method ClientMessage(message: Payload)
      requires Valid()
      modifies this
      ensures Valid()
      ensures client == old(client) && upstream == old(upstream) && listening == old(listening)
      ensures toClient == old(toClient)
      ensures !old(listening) ==> queue == old(queue) && toUpstream == old(toUpstream)
      ensures upstream == Open ==>
        && queue == old(queue)
        && toUpstream == (if ClientCheck(message).Ok? then old(toUpstream) + [message] else old(toUpstream))
      ensures old(listening) && upstream != Open ==>
        queue == old(queue) + [message] && toUpstream == old(toUpstream)
    {
      if !listening {
        return;
      }
      if upstream == Open {
        match ClientCheck(message)
        case Ok(true) =>
          toUpstream := toUpstream + [message];
        case Ok(false) =>
          toUpstream := toUpstream + [message];
        case Threw =>
      } else {
        queue := queue + [message];
      }
    }

    /**
     Upstream `message`. A payload routed to the client is sent to it once;
     one that makes the handler throw before the tool loop sends nothing;
     for a tool call, each `get_weather` entry pushes a response and sends
     the responses accumulated so far to the client and then upstream, and
     a throwing entry ends the handler after the sends already made.
     */
    method UpstreamMessage(message: Payload) returns (result: HandlerResult)
      requires Valid()
      modifies this
      ensures Valid()
      ensures client == old(client) && upstream == old(upstream)
      ensures queue == old(queue) && listening == old(listening)
      ensures RouteUpstream(message).Abort? ==>
        result == Aborted && toClient == old(toClient) && toUpstream == old(toUpstream)
      ensures RouteUpstream(message).ToClient? ==>
        result == Returned && toClient == old(toClient) + [message] && toUpstream == old(toUpstream)
      ensures RouteUpstream(message).RunTools? ==>
        var calls := RouteUpstream(message).calls;
        && toClient == old(toClient) + ToolSends(Responses(calls))
        && toUpstream == old(toUpstream) + ToolSends(Responses(calls))
        && (result == Aborted <==> Fails(calls))
    {
      var parsed := Parse(message);
      if parsed.None? {
        return Aborted;
      }
      var response := Defined(parsed.value);
      var setupComplete := Member(response, "setupComplete");
      if setupComplete.Threw? {
        return Aborted;
      }
      if Truthy(setupComplete.value) {
        toClient := toClient + [message];
        return Returned;
      }
      // `response` is not `null` here, so reading `toolCall` cannot throw.
      var toolCall := FieldOf(response, "toolCall");
      if !Truthy(toolCall) {
        toClient := toClient + [message];
        return Returned;
      }
      // A truthy `toolCall` is neither `null` nor `undefined`.
      var iterated := Iterate(FieldOf(toolCall, "functionCalls"));
      if iterated.Threw? {
        return Aborted;
      }
      var calls := iterated.value;
      assert RouteUpstream(message) == RunTools(calls);
      result := ToolLoop(calls);
    }

    /**
     The `for...of` loop over `functionCalls`: each `get_weather` entry
     pushes its response and sends the responses so far to both sides. An
     entry that throws ends the handler, keeping the sends already made.
     */
    method ToolLoop(calls: seq<Value>) returns (result: HandlerResult)
      modifies this`toClient, this`toUpstream
      ensures toClient == old(toClient) + ToolSends(Responses(calls))
      ensures toUpstream == old(toUpstream) + ToolSends(Responses(calls))
      ensures result == Aborted <==> Fails(calls)
    {
      var functionResponses: seq<Json> := [];
      var i := 0;
      while i < |calls|
        invariant 0 <= i <= |calls|
        invariant !Fails(calls[..i])
        invariant functionResponses == Responses(calls[..i])
        invariant toClient == old(toClient) + ToolSends(functionResponses)
        invariant toUpstream == old(toUpstream) + ToolSends(functionResponses)
      {
        ghost var done := calls[..i];
        assert calls[..i + 1] == done + [calls[i]];
        ResponsesSnoc(done, calls[i]);
        var updated, threw := CallIteration(calls[i], functionResponses);
        if threw {
          StopsAtFirstThrow(calls, i);
          return Aborted;
        }
        if CallStep(calls[i]).Respond? {
          ToolSendsSnoc(functionResponses, CallStep(calls[i]).entry);
        }
        functionResponses := updated;
        i := i + 1;
      }
      assert calls[..i] == calls;
      return Returned;
    }

    /**
     One pass of the loop body: a `get_weather` entry appends its response
     to `functionResponses`, then the list so far is sent to the client and
     (the `length > 0` guard always holding) upstream; other entries send
     nothing; `threw` reports the `TypeError` of `call.name` or `call.args.city`.
     */
    method CallIteration(call: Value, functionResponses: seq<Json>) returns (updated: seq<Json>, threw: bool)
      modifies this`toClient, this`toUpstream
      ensures threw <==> CallStep(call).Fail?
      ensures !CallStep(call).Respond? ==>
        updated == functionResponses && toClient == old(toClient) && toUpstream == old(toUpstream)
      ensures CallStep(call).Respond? ==>
        && updated == functionResponses + [CallStep(call).entry]
        && toClient == old(toClient) + [ToolResponse(updated)]
        && toUpstream == old(toUpstream) + [ToolResponse(updated)]
    {
      updated, threw := functionResponses, false;
      var name := Member(call, "name");
      if name.Threw? {
        return updated, true;
      }
      if name.value == Defined(JStr(WeatherName)) {
        if Member(FieldOf(call, "args"), "city").Threw? {
          return updated, true;
        }
        updated := updated + [ResponseEntry(call)];
        toClient := toClient + [ToolResponse(updated)];
        if |updated| > 0 {
          toUpstream := toUpstream + [ToolResponse(updated)];
        }
      }
    }

    /** Client `close`: the client is closed and `close()` is called on the upstream socket. */
    method ClientClosed()
      requires Valid()
      modifies this
      ensures Valid()
      ensures client == Closed && upstream == AfterClose(old(upstream))
      ensures queue == old(queue) && listening == old(listening)
      ensures toUpstream == old(toUpstream) && toClient == old(toClient)
    {
      client := Closed;
      upstream := AfterClose(upstream);
    }

    /** Upstream `close`: the upstream socket is closed, and the client is closed only if it is still open. */
    method UpstreamClosed()
      requires Valid()
      modifies this
      ensures Valid()
      ensures upstream == Closed
      ensures client == (if old(client) == Open then AfterClose(old(client)) else old(client))
      ensures queue == old(queue) && listening == old(listening)
      ensures toUpstream == old(toUpstream) && toClient == old(toClient)
    {
      upstream := Closed;
      if client == Open {
        client := AfterClose(client);
      }
    }

    /** Client `error`: only logged. */
    method ClientError(cause: string)
      ensures unchanged(this)
    {
    }

    /** Upstream `error`: only logged. */
    method UpstreamError(cause: string)
      ensures unchanged(this)
    {
    }
  }

  /** In every reachable state a still-connecting upstream has nothing queued. */
  lemma NothingQueuedBeforeOpen(s: Session)
    requires s.Valid() && s.upstream == Connecting
    ensures s.queue == [] && !s.listening
  {
  }
}
