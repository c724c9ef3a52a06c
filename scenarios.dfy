/**
 Whole sessions driven event by event, as a client of `Relay.Session`
 sees them: what each socket has been sent at the end.
 */
module Scenarios {
  import opened Js
  import opened Envelope
  import opened Tools
  import opened Relay

  /** `{"id": id, "name": "get_weather", "args": {"city": city}}` */
  function WeatherCallJson(id: string, city: string): Json
  {
    JObj(map["id" := JStr(id), "name" := JStr(WeatherName), "args" := JObj(map["city" := JStr(city)])])
  }

  /** `{"toolCall": {"functionCalls": calls}}` */
  function ToolCallMessage(calls: seq<Json>): Payload
  {
    Document(JObj(map["toolCall" := JObj(map["functionCalls" := JArr(calls)])]))
  }

  lemma WeatherCallSteps(id: string, city: string)
    ensures IsWeatherCall(Defined(WeatherCallJson(id, city)))
    ensures CallStep(Defined(WeatherCallJson(id, city))) == Respond(ResponseEntry(Defined(WeatherCallJson(id, city))))
    ensures FieldOf(Defined(WeatherCallJson(id, city)), "id") == Defined(JStr(id))
  {
  }

  lemma ToolCallRoute(calls: seq<Json>)
    ensures RouteUpstream(ToolCallMessage(calls)).RunTools?
    ensures var run := RouteUpstream(ToolCallMessage(calls)).calls;
      |run| == |calls| && forall i :: 0 <= i < |calls| ==> run[i] == Defined(calls[i])
  {
    var fields := map["toolCall" := JObj(map["functionCalls" := JArr(calls)])];
    assert "setupComplete" !in fields;
    ToolCallArrayRuns(fields, calls);
  }

  /** The sends of a tool call whose two entries both answer: two messages, carrying one and then both responses. */
  lemma TwoCallSends(first: Json, second: Json)
    requires CallStep(Defined(first)).Respond? && CallStep(Defined(second)).Respond?
    ensures RouteUpstream(ToolCallMessage([first, second])).RunTools?
    ensures var sends := ToolSends(Responses(RouteUpstream(ToolCallMessage([first, second])).calls));
      && |sends| == 2
      && CarriedResponses(sends[0]) == Some([CallStep(Defined(first)).entry])
      && CarriedResponses(sends[1]) == Some([CallStep(Defined(first)).entry, CallStep(Defined(second)).entry])
  {
    ToolCallRoute([first, second]);
    var calls := RouteUpstream(ToolCallMessage([first, second])).calls;
    assert calls == [Defined(first), Defined(second)];
    assert calls[1..] == [Defined(second)] && calls[1..][1..] == [];
    var rs := [CallStep(Defined(first)).entry, CallStep(Defined(second)).entry];
    assert Responses(calls[1..]) == [rs[1]];
    assert Responses(calls) == rs;
    ToolSendsCarryPrefixes(rs);
    assert rs[..1] == [rs[0]] && rs[..2] == rs;
  }

  /**
   Upstream opens, then asks for one weather lookup with id "1": the client
   gets one notification and upstream one tool response, each carrying the
   single response for id "1".
   */
  method OneWeatherCall() returns (toClient: seq<Payload>, toUpstream: seq<Payload>)
    ensures |toClient| == 1 && |toUpstream| == 1
    ensures CarriedResponses(toClient[0]) == CarriedResponses(toUpstream[0])
    ensures CarriedResponses(toUpstream[0]).Some? && |CarriedResponses(toUpstream[0]).value| == 1
    ensures var entry := CarriedResponses(toUpstream[0]).value[0];
      entry.JObj? && "id" in entry.fields && entry.fields["id"] == JStr("1")
  {
    var s := new Session();
    s.UpstreamOpen();
    var call := WeatherCallJson("1", "X");
    ToolCallRoute([call]);
    var calls := RouteUpstream(ToolCallMessage([call])).calls;
    WeatherCallSteps("1", "X");
    assert calls == [Defined(call)];
    assert Responses(calls) == [ResponseEntry(Defined(call))];
    var _ := s.UpstreamMessage(ToolCallMessage([call]));
    toClient, toUpstream := s.toClient, s.toUpstream;
    ToolSendsCarryPrefixes([ResponseEntry(Defined(call))]);
    ResponseEntryFields(Defined(call));
  }

  /**
   Two weather lookups in one tool call: upstream is sent two tool
   responses, the first carrying only the first response and the second
   carrying both, so the first result reaches upstream twice.
   */
  method TwoWeatherCalls() returns (toUpstream: seq<Payload>)
    ensures |toUpstream| == 2
    ensures CarriedResponses(toUpstream[0]).Some? && |CarriedResponses(toUpstream[0]).value| == 1
    ensures CarriedResponses(toUpstream[1]).Some? && |CarriedResponses(toUpstream[1]).value| == 2
    ensures CarriedResponses(toUpstream[0]).value[0] == CarriedResponses(toUpstream[1]).value[0]
  {
    var s := new Session();
    s.UpstreamOpen();
    var first, second := WeatherCallJson("1", "X"), WeatherCallJson("2", "Y");
    WeatherCallSteps("1", "X");
    WeatherCallSteps("2", "Y");
    TwoCallSends(first, second);
    var _ := s.UpstreamMessage(ToolCallMessage([first, second]));
    toUpstream := s.toUpstream;
  }

  /**
   A client message that arrives before upstream opens finds no listener
   and is lost; one sent after the open that passes the `'setup' in` check
   is the only payload upstream receives.
   */
  method EarlyMessageLost(early: Payload, late: Payload) returns (toUpstream: seq<Payload>)
    requires ClientCheck(late).Ok?
    ensures toUpstream == [late]
  {
    var s := new Session();
    s.ClientMessage(early);
    s.UpstreamOpen();
    s.ClientMessage(late);
    toUpstream := s.toUpstream;
  }

  /**
   After upstream has opened and closed, a client message is queued and
   stays queued: `open` cannot fire again, so nothing drains it.
   */
  method QueuedAfterUpstreamClose(message: Payload) returns (queue: seq<Payload>, toUpstream: seq<Payload>, client: ReadyState)
    ensures queue == [message] && toUpstream == []
    ensures client == Closing
  {
    var s := new Session();
    s.UpstreamOpen();
    s.UpstreamClosed();
    s.ClientMessage(message);
    queue, toUpstream, client := s.queue, s.toUpstream, s.client;
  }
}
