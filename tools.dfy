/**
 The tool loop over `toolCall.functionCalls`: which entries produce a
 `get_weather` response, where the loop throws, and the messages it sends.
 The loop itself, with its sends, is `Relay.Session.UpstreamMessage`; the
 functions here are its specification.
 */
module Tools {
  import opened Js

  const WeatherName: string := "get_weather"

  /** The fixed weather record every `get_weather` call is answered with. */
  const MockWeather: Json := JObj(map[
    "temperature" := JNum(212.0),
    "description" := JStr("cloudy with a chance of meatballs"),
    "humidity" := JNum(105.0),
    "windSpeed" := JNum(-5.0),
    "city" := JStr("Gemini-istan"),
    "country" := JStr("GB")])

  /** The `response` member of every function response. */
  const MockResult: Json := JObj(map["result" := JObj(map["object_value" := MockWeather])])

  /** `call.name === 'get_weather'`. */
  predicate IsWeatherCall(call: Value)
  {
    FieldOf(call, "name") == Defined(JStr(WeatherName))
  }

  /**
   The `{id, name, response}` object pushed for a `get_weather` call.
   `JSON.stringify` drops a member whose value is `undefined`, so `id` is
   present exactly when the call has one.
   */
  function ResponseEntry(call: Value): Json
    requires IsWeatherCall(call)
  {
    var base := map["name" := JStr(WeatherName), "response" := MockResult];
    match FieldOf(call, "id")
    case Undefined => JObj(base)
    case Defined(id) => JObj(base["id" := id])
  }

  /** A response copies the call's `name` and (when it has one) its `id`, and carries the mock result. */
  lemma ResponseEntryFields(call: Value)
    requires IsWeatherCall(call)
    ensures var r := ResponseEntry(call);
      && r.JObj?
      && "name" in r.fields && Defined(r.fields["name"]) == FieldOf(call, "name")
      && "response" in r.fields && r.fields["response"] == MockResult
      && ("id" in r.fields <==> FieldOf(call, "id").Defined?)
      && ("id" in r.fields ==> Defined(r.fields["id"]) == FieldOf(call, "id"))
      && forall k :: k in r.fields ==> k == "id" || k == "name" || k == "response"
  {
  }

  /** What one loop iteration does with an entry. */
  datatype Step = Skip | Respond(entry: Json) | Fail

  /**
   One iteration: `call.name` throws on `null`/`undefined`; a `get_weather`
   call then evaluates `call.args.city` (for the log line), which throws
   when `args` is absent or `null`; otherwise its response is pushed.
   */
  function CallStep(call: Value): Step
  {
    match Member(call, "name")
    case Threw => Fail
    case Ok(name) =>
      if name != Defined(JStr(WeatherName)) then Skip
      else if Member(FieldOf(call, "args"), "city").Threw? then Fail
      else Respond(ResponseEntry(call))
  }

  /**
   An entry yields a response exactly when it is a `get_weather` call with
   an `args` that is neither absent nor `null`, and is skipped exactly when
   it is an object-like value of another name.
   */
  lemma CallStepCases(call: Value)
    ensures CallStep(call).Respond? <==> IsWeatherCall(call) && FieldOf(call, "args") != Undefined && FieldOf(call, "args") != Defined(JNull)
    ensures CallStep(call).Respond? ==> CallStep(call).entry == ResponseEntry(call)
    ensures CallStep(call).Skip? <==> call != Undefined && call != Defined(JNull) && !IsWeatherCall(call)
  {
  }

  /** Whether some entry makes the loop throw. */
  predicate Fails(calls: seq<Value>)
  {
    calls != [] && (CallStep(calls[0]).Fail? || Fails(calls[1..]))
  }

  /** The responses the loop accumulates before it ends or throws. */
  function Responses(calls: seq<Value>): (r: seq<Json>)
    ensures |r| <= |calls|
  {
    if calls == [] then []
    else
      match CallStep(calls[0])
      case Fail => []
      case Skip => Responses(calls[1..])
      case Respond(e) => [e] + Responses(calls[1..])
  }

  /** The number of `get_weather` entries. */
  function WeatherCount(calls: seq<Value>): (n: nat)
    ensures n <= |calls|
  {
    if calls == [] then 0 else (if IsWeatherCall(calls[0]) then 1 else 0) + WeatherCount(calls[1..])
  }

  /** The `{tool_response: {function_responses: ...}}` message. */
  function ToolResponse(rs: seq<Json>): Payload
  {
    Stringify(JObj(map["tool_response" := JObj(map["function_responses" := JArr(rs)])]))
  }

  /** A tool-response message carries exactly the list it was built from. */
  lemma ToolResponseCarries(rs: seq<Json>)
    ensures CarriedResponses(ToolResponse(rs)) == Some(rs)
  {
  }

  /** Reads back the `function_responses` list of a tool-response message. */
  function CarriedResponses(p: Payload): Option<seq<Json>>
  {
    match Parse(p)
    case Some(JObj(f)) =>
      if "tool_response" in f && f["tool_response"].JObj? && "function_responses" in f["tool_response"].fields
         && f["tool_response"].fields["function_responses"].JArr?
      then Some(f["tool_response"].fields["function_responses"].items)
      else None
    case _ => None
  }

  /**
   The messages the loop sends to each side for the responses `rs`: one
   per response.
   */
  function ToolSends(rs: seq<Json>): (r: seq<Payload>)
    ensures |r| == |rs|
  {
    if rs == [] then [] else ToolSends(rs[..|rs| - 1]) + [ToolResponse(rs)]
  }

  /** One more response: one more message, carrying all of them. */
  lemma ToolSendsSnoc(rs: seq<Json>, e: Json)
    ensures ToolSends(rs + [e]) == ToolSends(rs) + [ToolResponse(rs + [e])]
  {
    assert (rs + [e])[..|rs|] == rs;
  }

  /** The j-th message sent for `rs` carries the first j responses. */
  lemma {:induction false} ToolSendsCarryPrefixes(rs: seq<Json>)
    ensures forall j :: 0 <= j < |rs| ==> CarriedResponses(ToolSends(rs)[j]) == Some(rs[..j + 1])
  {
    if rs != [] {
      var init := rs[..|rs| - 1];
      ToolSendsCarryPrefixes(init);
      forall j | 0 <= j < |rs| ensures CarriedResponses(ToolSends(rs)[j]) == Some(rs[..j + 1]) {
        if j < |init| {
          assert ToolSends(rs)[j] == ToolSends(init)[j];
          assert init[..j + 1] == rs[..j + 1];
        } else {
          assert rs[..j + 1] == rs;
          ToolResponseCarries(rs);
        }
      }
    }
  }

  /** Processing `xs` then `ys` without a throw in `xs` accumulates the responses of both. */
  lemma {:induction false} ResponsesAppend(xs: seq<Value>, ys: seq<Value>)
    requires !Fails(xs)
    ensures Responses(xs + ys) == Responses(xs) + Responses(ys)
    ensures Fails(xs + ys) <==> Fails(ys)
  {
    if xs == [] {
      assert xs + ys == ys;
    } else {
      var zs := xs + ys;
      assert zs[0] == xs[0];
      assert zs[1..] == xs[1..] + ys;
      ResponsesAppend(xs[1..], ys);
      match CallStep(xs[0])
      case Skip =>
        assert Responses(zs) == Responses(zs[1..]);
      case Respond(e) =>
        assert Responses(zs) == [e] + Responses(zs[1..]);
        assert Responses(xs) == [e] + Responses(xs[1..]);
    }
  }

  /** One more entry: its response is appended, or the loop throws at it. */
  lemma ResponsesSnoc(xs: seq<Value>, call: Value)
    requires !Fails(xs)
    ensures Fails(xs + [call]) <==> CallStep(call).Fail?
    ensures CallStep(call).Respond? ==> Responses(xs + [call]) == Responses(xs) + [CallStep(call).entry]
    ensures !CallStep(call).Respond? ==> Responses(xs + [call]) == Responses(xs)
  {
    ResponsesAppend(xs, [call]);
    assert [call][1..] == [];
    if CallStep(call).Fail? {
      assert CallStep([call][0]).Fail?;
    }
  }

  /**
   Without a throw, the loop produces one response per `get_weather` entry,
   in input order: the response at position `WeatherCount(calls[..i])` is
   the one for entry `i`.
   */
  lemma {:induction false} ResponsesFollowCalls(calls: seq<Value>)
    requires !Fails(calls)
    ensures |Responses(calls)| == WeatherCount(calls)
    ensures forall i :: 0 <= i < |calls| && IsWeatherCall(calls[i]) ==>
      WeatherCount(calls[..i]) < |Responses(calls)| && Responses(calls)[WeatherCount(calls[..i])] == ResponseEntry(calls[i])
  {
    if calls != [] {
      var rest := calls[1..];
      ResponsesFollowCalls(rest);
      var d := if IsWeatherCall(calls[0]) then 1 else 0;
      assert |Responses(calls)| == d + |Responses(rest)|;
      forall i | 0 <= i < |calls| && IsWeatherCall(calls[i])
        ensures WeatherCount(calls[..i]) < |Responses(calls)| && Responses(calls)[WeatherCount(calls[..i])] == ResponseEntry(calls[i])
      {
        if i == 0 {
          assert calls[..0] == [];
        } else {
          assert calls[..i][0] == calls[0];
          assert calls[..i][1..] == rest[..i - 1];
          assert WeatherCount(calls[..i]) == d + WeatherCount(rest[..i - 1]);
          assert rest[i - 1] == calls[i];
        }
      }
    }
  }

  /** The loop stops at its first throwing entry: what it accumulated is what came before that entry. */
  lemma StopsAtFirstThrow(calls: seq<Value>, k: nat)
    requires k < |calls| && CallStep(calls[k]).Fail? && !Fails(calls[..k])
    ensures Responses(calls) == Responses(calls[..k])
    ensures Fails(calls)
  {
    assert calls == calls[..k] + calls[k..];
    ResponsesAppend(calls[..k], calls[k..]);
    assert calls[k..][0] == calls[k];
  }

  /** Entries not named `get_weather` add no response, so a batch without one sends nothing. */
  lemma {:induction false} NoWeatherNoResponses(calls: seq<Value>)
    requires forall i :: 0 <= i < |calls| ==> !IsWeatherCall(calls[i])
    ensures Responses(calls) == [] && ToolSends(Responses(calls)) == []
  {
    if calls != [] {
      assert !CallStep(calls[0]).Respond?;
      forall i | 0 <= i < |calls[1..]| ensures !IsWeatherCall(calls[1..][i]) {
        assert calls[1..][i] == calls[i + 1];
      }
      NoWeatherNoResponses(calls[1..]);
    }
  }
}
