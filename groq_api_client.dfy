/**
 * The chat-completion client: the buffered call, the streaming call and the
 * decoder that turns the lines of a streamed response body into events.
 *
 * The HTTP exchange is a parameter `send` from the request that is posted to
 * the response that comes back; JSON parsing is a partial oracle `parse`,
 * which yields `None` where the JSON library would throw.
 */
module GroqApiClient {
  import opened Wrappers
  import opened Json

  /** The way a call of the client ends without a result. */
  datatype ClientError =
    | DuplicateProperty(name: string)   // `request.Add` of a name the request already has
    | UnsuccessfulStatus(status: int)   // `EnsureSuccessStatusCode` on a status outside 200-299
    | InvalidJson(text: string)         // `JObject.Parse` of text that is not a JSON object

  datatype HttpResponse = HttpResponse(status: int, body: string)

  /** A streamed response: its status and its body already split into lines. */
  datatype StreamingResponse = StreamingResponse(status: int, lines: seq<string>)

  const DataPrefix: string := "data: "
  const DoneSentinel: string := "[DONE]"

  /** The property the buffered call adds: `{"type": "json_object"}`. */
  const ResponseFormat: Value := Obj(map["type" := Str("json_object")])

  predicate IsSuccessStatus(status: int)
  {
    200 <= status <= 299
  }

  /** An ordinal, case-sensitive test that `line` begins with `"data: "`. */
  predicate IsDataLine(line: string)
  {
    |DataPrefix| <= |line| && line[..|DataPrefix|] == DataPrefix
  }

  /** What one line of the body contributes to the event sequence. */
  datatype LineOutcome = Skip | Emit(event: JsonObject) | Fail(payload: string)

  function DecodeLine(line: string, parse: string -> Option<JsonObject>): (o: LineOutcome)
    ensures !o.Skip? ==> IsDataLine(line) && line[|DataPrefix|..] != DoneSentinel
    ensures o.Emit? ==> parse(line[|DataPrefix|..]) == Some(o.event)
    ensures o.Fail? ==> o.payload == line[|DataPrefix|..] && parse(o.payload) == None
    ensures o.Skip? ==> !IsDataLine(line) || line == DataPrefix + DoneSentinel
  {
    if !IsDataLine(line) then Skip
    else
      var data := line[|DataPrefix|..];
      if data == DoneSentinel then Skip
      else
        match parse(data)
        case Some(event) => Emit(event)
        case None => Fail(data)
  }

  /** The events a body yields, and the error that ended it early, if any. */
  datatype Decoding = Decoding(events: seq<JsonObject>, failure: Option<ClientError>)

  /** The decoding of a whole body, line by line from the front. */
  function Decoded(lines: seq<string>, parse: string -> Option<JsonObject>): (d: Decoding)
    decreases |lines|
    ensures |d.events| <= |lines|
    ensures d.failure.Some? ==> d.failure.value.InvalidJson? && |d.events| < |lines|
  {
    if lines == [] then Decoding([], None)
    else
      match DecodeLine(lines[0], parse)
      case Skip => Decoded(lines[1..], parse)
      case Emit(event) =>
        var rest := Decoded(lines[1..], parse);
        Decoding([event] + rest.events, rest.failure)
      case Fail(payload) => Decoding([], Some(InvalidJson(payload)))
  }

  /**
   * The loop of `CreateChatCompletionStreamAsync`: read the lines in order,
   * keep the `data: ` ones, skip the `[DONE]` payload and parse the others.
   * A payload that does not parse ends the sequence with an error; the
   * events yielded before it are returned with it.
   */
  method DecodeEventStream(lines: seq<string>, parse: string -> Option<JsonObject>)
    returns (events: seq<JsonObject>, failure: Option<ClientError>)
    ensures Decoding(events, failure) == Decoded(lines, parse)
  {
    events, failure := [], None;
    var i := 0;
    while i < |lines|
      invariant 0 <= i <= |lines|
      invariant Decoded(lines, parse)
             == Decoding(events + Decoded(lines[i..], parse).events, Decoded(lines[i..], parse).failure)
    {
      var line := lines[i];
      assert lines[i..][1..] == lines[i + 1..];
      i := i + 1;
      if IsDataLine(line) {
        var data := line[|DataPrefix|..];
        if data != DoneSentinel {
          match parse(data)
          case Some(event) =>
            events := events + [event];
          case None =>
            failure := Some(InvalidJson(data));
            return;
        }
      }
    }
  }

  /**
   * `CreateChatCompletionAsync`: add `response_format` to the caller's own
   * request, post it, check the status, then parse the whole body.
   */
  method CreateChatCompletion(request: ObjectNode, send: JsonObject -> HttpResponse,
                              parse: string -> Option<JsonObject>)
    returns (r: Result<JsonObject, ClientError>)
    modifies request
    ensures "response_format" in old(request.properties) ==>
              r == Failure(DuplicateProperty("response_format"))
              && request.properties == old(request.properties)
    ensures "response_format" !in old(request.properties) ==>
              request.properties == old(request.properties)["response_format" := ResponseFormat]
    ensures "response_format" !in old(request.properties) ==>
              var response := send(request.properties);
              if !IsSuccessStatus(response.status) then r == Failure(UnsuccessfulStatus(response.status))
              else if parse(response.body).None? then r == Failure(InvalidJson(response.body))
              else r == Success(parse(response.body).value)
  {
    var added := request.Add("response_format", ResponseFormat);
    if !added {
      return Failure(DuplicateProperty("response_format"));
    }
    var response := send(request.properties);
    if !IsSuccessStatus(response.status) {
      return Failure(UnsuccessfulStatus(response.status));
    }
    match parse(response.body)
    case None => r := Failure(InvalidJson(response.body));
    case Some(json) => r := Success(json);
  }

  /**
   * `CreateChatCompletionStreamAsync`, enumerated to its end: add
   * `stream = true` to the caller's own request, post it, check the status
   * before any line of the body is looked at, then decode the body.
   */
  method CreateChatCompletionStream(request: ObjectNode, send: JsonObject -> StreamingResponse,
                                    parse: string -> Option<JsonObject>)
    returns (events: seq<JsonObject>, failure: Option<ClientError>)
    modifies request
    ensures "stream" in old(request.properties) ==>
              events == [] && failure == Some(DuplicateProperty("stream"))
              && request.properties == old(request.properties)
    ensures "stream" !in old(request.properties) ==>
              request.properties == old(request.properties)["stream" := Bool(true)]
    ensures "stream" !in old(request.properties) ==>
              var response := send(request.properties);
              if IsSuccessStatus(response.status) then Decoding(events, failure) == Decoded(response.lines, parse)
              else events == [] && failure == Some(UnsuccessfulStatus(response.status))
  {
    var added := request.Add("stream", Bool(true));
    if !added {
      return [], Some(DuplicateProperty("stream"));
    }
    var response := send(request.properties);
    if !IsSuccessStatus(response.status) {
      return [], Some(UnsuccessfulStatus(response.status));
    }
    events, failure := DecodeEventStream(response.lines, parse);
  }

  /**
   * Passing the same request object to the buffered call twice: the first
   * call leaves `response_format` behind, so the second always fails.
   */
  method ReuseRequest(request: ObjectNode, send: JsonObject -> HttpResponse,
                      parse: string -> Option<JsonObject>)
    returns (first: Result<JsonObject, ClientError>, second: Result<JsonObject, ClientError>)
    modifies request
    ensures second == Failure(DuplicateProperty("response_format"))
    ensures "response_format" in request.properties
  {
    first := CreateChatCompletion(request, send, parse);
    second := CreateChatCompletion(request, send, parse);
  }

  // ---------------------------------------------------------------------
  // Properties of the decoding

  /**
   * Decoding a concatenation is decoding the first part and, unless that
   * failed, the second part after it: events are never revised and
   * nothing after a failure is decoded.
   */
  lemma {:induction false} DecodedAppend(a: seq<string>, b: seq<string>, parse: string -> Option<JsonObject>)
    ensures Decoded(a + b, parse)
         == if Decoded(a, parse).failure.Some? then Decoded(a, parse)
            else Decoding(Decoded(a, parse).events + Decoded(b, parse).events, Decoded(b, parse).failure)
    decreases |a|
  {
    if a == [] {
      assert a + b == b;
    } else {
      assert (a + b)[0] == a[0];
      assert (a + b)[1..] == a[1..] + b;
      DecodedAppend(a[1..], b, parse);
      match DecodeLine(a[0], parse)
      case Skip =>
      case Emit(event) =>
        var ra := Decoded(a[1..], parse);
        var rb := Decoded(b, parse);
        assert [event] + (ra.events + rb.events) == ([event] + ra.events) + rb.events;
      case Fail(_) =>
    }
  }

  /**
   * A line that is not a `data: ` line (a comment, a blank keep-alive,
   * `data:` without the space) or that carries the `[DONE]` payload can be
   * removed from anywhere in the body without changing the outcome: it
   * yields nothing, raises nothing and does not stop the lines after it.
   */
  lemma SkippedLineIsInvisible(before: seq<string>, line: string, after: seq<string>,
                               parse: string -> Option<JsonObject>)
    requires !IsDataLine(line) || line[|DataPrefix|..] == DoneSentinel
    ensures Decoded(before + [line] + after, parse) == Decoded(before + after, parse)
  {
    assert before + [line] + after == before + ([line] + after);
    DecodedAppend(before, [line] + after, parse);
    DecodedAppend([line], after, parse);
    DecodedAppend(before, after, parse);
    assert Decoded([line], parse) == Decoding([], None) by {
      assert [line][1..] == [];
    }
  }

  /** In particular a `[DONE]` line does not end the sequence. */
  lemma DoneDoesNotStop(before: seq<string>, after: seq<string>, parse: string -> Option<JsonObject>)
    ensures Decoded(before + [DataPrefix + DoneSentinel] + after, parse) == Decoded(before + after, parse)
  {
    var line := DataPrefix + DoneSentinel;
    assert line[..|DataPrefix|] == DataPrefix && line[|DataPrefix|..] == DoneSentinel;
    SkippedLineIsInvisible(before, line, after, parse);
  }

  /**
   * Reading more lines only extends what was already yielded; once a
   * payload has failed to parse, no later line changes the outcome.
   */
  lemma EventsArePrefixStable(a: seq<string>, b: seq<string>, parse: string -> Option<JsonObject>)
    ensures Decoded(a, parse).events <= Decoded(a + b, parse).events
    ensures Decoded(a, parse).failure.Some? ==> Decoded(a + b, parse) == Decoded(a, parse)
  {
    DecodedAppend(a, b, parse);
  }

  /**
   * The payloads the parser would be handed if none of them failed, in line
   * order: every line that begins with `data: `, with those six characters
   * removed, except the `[DONE]` payload. Decoding parses a prefix of them.
   */
  function Payloads(lines: seq<string>): (ps: seq<string>)
    ensures |ps| <= |lines|
  {
    if lines == [] then []
    else if IsDataLine(lines[0]) && lines[0][|DataPrefix|..] != DoneSentinel
    then [lines[0][|DataPrefix|..]] + Payloads(lines[1..])
    else Payloads(lines[1..])
  }

  /**
   * What the decoding means: the events are the parses of the payloads, in
   * the order of their lines. Without a failure every payload parsed; with
   * one, the failing payload is the first that did not parse, and exactly
   * the payloads before it were yielded.
   */
  lemma {:induction false} DecodedMeaning(lines: seq<string>, parse: string -> Option<JsonObject>)
    ensures var d, ps := Decoded(lines, parse), Payloads(lines);
            && |d.events| <= |ps|
            && (forall k :: 0 <= k < |d.events| ==> parse(ps[k]) == Some(d.events[k]))
            && (d.failure.None? ==> |d.events| == |ps|)
            && (d.failure.Some? ==>
                  && |d.events| < |ps|
                  && d.failure == Some(InvalidJson(ps[|d.events|]))
                  && parse(ps[|d.events|]) == None)
    decreases |lines|
  {
    if lines != [] {
      DecodedMeaning(lines[1..], parse);
      var rest, prest := Decoded(lines[1..], parse), Payloads(lines[1..]);
      match DecodeLine(lines[0], parse)
      case Skip =>
      case Emit(event) =>
        var d, ps := Decoded(lines, parse), Payloads(lines);
        assert d.events == [event] + rest.events;
        assert ps == [lines[0][|DataPrefix|..]] + prest;
        forall k | 0 <= k < |d.events| ensures parse(ps[k]) == Some(d.events[k]) {
          if k > 0 {
            assert ps[k] == prest[k - 1] && d.events[k] == rest.events[k - 1];
          }
        }
      case Fail(_) =>
    }
  }

  /** Every payload is some line of the body with its `data: ` prefix removed, and never `[DONE]`. */
  lemma {:induction false} PayloadsComeFromDataLines(lines: seq<string>, p: string)
    requires p in Payloads(lines)
    ensures exists i :: 0 <= i < |lines| && IsDataLine(lines[i]) && lines[i] == DataPrefix + p && p != DoneSentinel
    decreases |lines|
  {
    if IsDataLine(lines[0]) && lines[0][|DataPrefix|..] != DoneSentinel && p == lines[0][|DataPrefix|..] {
      assert lines[0] == lines[0][..|DataPrefix|] + lines[0][|DataPrefix|..];
    } else {
      PayloadsComeFromDataLines(lines[1..], p);
      var i :| 0 <= i < |lines[1..]| && IsDataLine(lines[1..][i]) && lines[1..][i] == DataPrefix + p && p != DoneSentinel;
      assert lines[i + 1] == lines[1..][i];
    }
  }

  /** A body of one delta line and a `[DONE]` line yields exactly that delta. */
  lemma StreamScenario(parse: string -> Option<JsonObject>, delta: JsonObject)
    requires parse("{\"choice\":1}") == Some(delta)
    ensures Decoded(["data: {\"choice\":1}", "data: [DONE]"], parse) == Decoding([delta], None)
  {
  }
}
