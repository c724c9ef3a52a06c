/**
 The envelope checks of the relay: the test the client `message` handler
 applies before forwarding, and the classification of upstream messages
 into "relay to the client", "run the tool loop" and "handler throws".
 */
module Envelope {
  import opened Js

  /**
   The client handler's `try` block without its sends: `JSON.parse(message)`
   followed by `'setup' in parsedMessage`. `Threw` is the `catch` branch.
   */
  function ClientCheck(p: Payload): (r: Try<bool>)
    ensures r.Ok? <==> Parse(p).Some? && (Parse(p).value.JObj? || Parse(p).value.JArr?)
    ensures r == Ok(true) <==> Parse(p).Some? && Parse(p).value.JObj? && "setup" in Parse(p).value.fields
  {
    match Parse(p)
    case None => Threw
    case Some(j) => SetupIn(j)
  }

  /** What the upstream `message` handler does with a payload. */
  datatype Route =
    | Abort                          // the handler throws before sending anything
    | ToClient                       // the payload goes to the client verbatim
    | RunTools(calls: seq<Value>)    // the tool loop runs over these entries

  /**
   The upstream handler's decision, in the order the code evaluates it:
   `JSON.parse`, then `wsResponse.setupComplete`, then `wsResponse.toolCall`,
   then iteration over `toolCall.functionCalls`. A payload is relayed
   exactly when it parses to a non-null document whose `setupComplete` is
   truthy or whose `toolCall` is falsy; the handler throws exactly when the
   payload does not parse, is `null`, or has a truthy `toolCall` (and a
   falsy `setupComplete`) whose `functionCalls` is not iterable.
   */
  function RouteUpstream(p: Payload): (r: Route)
    ensures r.ToClient? <==>
      && Parse(p).Some? && Parse(p) != Some(JNull)
      && (Truthy(FieldOf(Defined(Parse(p).value), "setupComplete")) || !Truthy(FieldOf(Defined(Parse(p).value), "toolCall")))
    ensures r.Abort? <==>
      || Parse(p).None? || Parse(p) == Some(JNull)
      || (&& !Truthy(FieldOf(Defined(Parse(p).value), "setupComplete"))
          && Truthy(FieldOf(Defined(Parse(p).value), "toolCall"))
          && Iterate(FieldOf(FieldOf(Defined(Parse(p).value), "toolCall"), "functionCalls")).Threw?)
    ensures r.RunTools? ==>
      && Parse(p).Some?
      && !Truthy(FieldOf(Defined(Parse(p).value), "setupComplete"))
      && Truthy(FieldOf(Defined(Parse(p).value), "toolCall"))
      && Iterate(FieldOf(FieldOf(Defined(Parse(p).value), "toolCall"), "functionCalls")) == Ok(r.calls)
  {
    match Parse(p)
    case None => Abort
    case Some(j) =>
      match Member(Defined(j), "setupComplete")
      case Threw => Abort
      case Ok(setupComplete) =>
        if Truthy(setupComplete) then ToClient
        else
          var toolCall := FieldOf(Defined(j), "toolCall");
          if !Truthy(toolCall) then ToClient
          else
            match Iterate(FieldOf(toolCall, "functionCalls"))
            case Threw => Abort
            case Ok(calls) => RunTools(calls)
  }

  /** A payload `JSON.parse` rejects makes the handler throw: nothing is relayed. */
  lemma GarbledAborts(text: string)
    ensures RouteUpstream(Garbled(text)) == Abort
  {
  }

  /** A truthy `setupComplete` relays the payload, whatever `toolCall` holds. */
  lemma SetupCompleteWins(fields: map<string, Json>)
    requires "setupComplete" in fields && Truthy(Defined(fields["setupComplete"]))
    ensures RouteUpstream(Document(JObj(fields))) == ToClient
  {
  }

  /** A document that is not `null` and has a falsy or absent `toolCall` (and no truthy `setupComplete`) is relayed. */
  lemma FalsyToolCallRelays(j: Json)
    requires j != JNull && !Truthy(FieldOf(Defined(j), "toolCall"))
    ensures RouteUpstream(Document(j)) == ToClient
  {
  }

  /**
   A truthy `toolCall` is never relayed: when `setupComplete` is falsy and
   `toolCall.functionCalls` is absent or is neither an array nor a string,
   the `for...of` throws and nothing is sent.
   */
  lemma NonIterableFunctionCallsAborts(fields: map<string, Json>)
    requires "toolCall" in fields && Truthy(Defined(fields["toolCall"]))
    requires !Truthy(FieldOf(Defined(JObj(fields)), "setupComplete"))
    requires var f := FieldOf(Defined(fields["toolCall"]), "functionCalls");
      f == Undefined || !(f.json.JArr? || f.json.JStr?)
    ensures RouteUpstream(Document(JObj(fields))) == Abort
  {
  }

  /** The tool loop runs over exactly the entries of a `functionCalls` array, in order. */
  lemma ToolCallArrayRuns(fields: map<string, Json>, calls: seq<Json>)
    requires "toolCall" in fields && fields["toolCall"].JObj?
    requires "functionCalls" in fields["toolCall"].fields && fields["toolCall"].fields["functionCalls"] == JArr(calls)
    requires !Truthy(FieldOf(Defined(JObj(fields)), "setupComplete"))
    ensures RouteUpstream(Document(JObj(fields))).RunTools?
    ensures var run := RouteUpstream(Document(JObj(fields))).calls;
      |run| == |calls| && forall i :: 0 <= i < |calls| ==> run[i] == Defined(calls[i])
  {
  }
}
