/**
 * The local-LLM side of main.js: the endpoint, the `/models` connection
 * check, choosing the model for a chat request, and the relay that turns the
 * streamed chat-completion body into `llm-stream-chunk`, `llm-stream-end` and
 * `llm-stream-error` messages to the chat window.
 *
 * Network calls are not modelled: the `/models` probe is given as its outcome,
 * and the chat response reaches the relay as a sequence of events. Reading
 * `choices[0].delta.content` out of a `data: ` payload with `JSON.parse` is a
 * function parameter `extract`, which yields `None` when the payload does not
 * parse or has no string content there.
 */
module LlmApi {
  import opened Wrappers
  import opened Text
  import opened AppConfig

  const DefaultEndpoint: string := "http://localhost:8000/api/v1"

  /**
   * `(config.llmConfig?.endpoint || default).replace(/\/+$/, '')` (main.js:505,
   * 520): the configured endpoint, or the default when it is missing or empty,
   * with its trailing slashes removed.
   */
  function Endpoint(llm: Option<LlmSettings>): (e: string)
    ensures var raw := if llm.Some? && llm.value.endpoint != "" then llm.value.endpoint else DefaultEndpoint;
      && |e| <= |raw| && raw[..|e|] == e
      && (forall i :: |e| <= i < |raw| ==> raw[i] == '/')
    ensures e == [] || e[|e| - 1] != '/'
  {
    StripTrailing(if llm.Some? && llm.value.endpoint != "" then llm.value.endpoint else DefaultEndpoint, '/')
  }

  /** Normalising an endpoint that is already normalised changes nothing. */
  lemma EndpointNormalized(llm: Option<LlmSettings>)
    ensures StripTrailing(Endpoint(llm), '/') == Endpoint(llm)
    ensures llm.None? ==> Endpoint(llm) == DefaultEndpoint
  {
    StripTrailingIdempotent(if llm.Some? && llm.value.endpoint != "" then llm.value.endpoint else DefaultEndpoint, '/');
  }

  function ModelsUrl(endpoint: string): string { endpoint + "/models" }
  function ChatUrl(endpoint: string): string { endpoint + "/chat/completions" }

  /** The `data` array of a `/models` answer as ids, or the message of a body that is not JSON. */
  datatype ModelListing = Listing(ids: seq<string>) | Unparsable(message: string)

  /** The outcome of `fetch(endpoint + '/models')`: a failure (timeout included) or a status and body. */
  datatype ModelsProbe = FetchFailed(message: string) | Responded(status: nat, listing: ModelListing)

  /** `res.ok`. */
  predicate StatusOk(status: nat) { 200 <= status <= 299 }

  /** The reply of `check-llm-connection`: `{ ok: true, models }` or `{ ok: false, error }`. */
  datatype CheckResult = Connected(models: seq<string>) | Failed(error: string)

  /** `HTTP <status>`. */
  function HttpStatusMessage(status: nat): (m: string)
    ensures StartsWith(m, "HTTP ") && ParseInt(m[5..]) == Some(status as int)
  {
    var m := "HTTP " + NatToString(status);
    assert m[5..] == NatToString(status);
    ParseIntNatToString(status);
    m
  }

  /** `check-llm-connection` (main.js:503-516) given the probe's outcome. */
  function CheckConnection(probe: ModelsProbe): (r: CheckResult)
    ensures r.Connected? <==> probe.Responded? && StatusOk(probe.status) && probe.listing.Listing?
    ensures r.Connected? ==> r.models == probe.listing.ids
    ensures probe.FetchFailed? ==> r == Failed(probe.message)
    ensures probe.Responded? && !StatusOk(probe.status) ==> r == Failed(HttpStatusMessage(probe.status))
    ensures probe.Responded? && StatusOk(probe.status) && probe.listing.Unparsable? ==>
      r == Failed(probe.listing.message)
  {
    match probe
    case FetchFailed(msg) => Failed(msg)
    case Responded(status, listing) =>
      if !StatusOk(status) then Failed(HttpStatusMessage(status))
      else match listing
        case Listing(ids) => Connected(ids)
        case Unparsable(msg) => Failed(msg)
  }

  /** The model `llmConfig` names, `""` when there is no `llmConfig`. */
  function ConfiguredModel(llm: Option<LlmSettings>): string {
    if llm.Some? then llm.value.model else ""
  }

  /**
   * `requestModel` (main.js:521-537): the argument if non-empty, else the
   * configured model, else the first id of a successful probe; `""` when none
   * of these gives a name. The probe is made only in the last case.
   */
  function RequestModel(arg: string, llm: Option<LlmSettings>, probe: ModelsProbe): (m: string)
    ensures arg != "" ==> m == arg
    ensures arg == "" && ConfiguredModel(llm) != "" ==> m == ConfiguredModel(llm)
    ensures arg == "" && ConfiguredModel(llm) == "" ==>
      (m != "" <==> probe.Responded? && StatusOk(probe.status) && probe.listing.Listing?
                    && |probe.listing.ids| > 0 && probe.listing.ids[0] != "")
    ensures m != "" && arg == "" && ConfiguredModel(llm) == "" ==> m == probe.listing.ids[0]
  {
    if arg != "" then arg
    else if ConfiguredModel(llm) != "" then ConfiguredModel(llm)
    else match probe
      case Responded(status, Listing(ids)) =>
        if StatusOk(status) && |ids| > 0 then ids[0] else ""
      case _ => ""
  }

  datatype Role = System | User | Assistant

  datatype Message = Message(role: Role, content: string)

  /** The body posted to `/chat/completions`. */
  datatype ChatRequest = ChatRequest(url: string, model: string, messages: seq<Message>, stream: bool)

  /** How a `send-llm-message` call starts: one error and no request, or a streamed request. */
  datatype ChatStart = Abort(message: string) | Post(request: ChatRequest)

  const NoModelMessage: string := "モデルが見つかりません。設定画面でモデル名を指定してください。"

  function StartChat(messages: seq<Message>, arg: string, llm: Option<LlmSettings>, probe: ModelsProbe): (r: ChatStart)
    ensures r.Abort? <==> RequestModel(arg, llm, probe) == ""
    ensures r.Abort? ==> r.message == NoModelMessage
    ensures r.Post? ==>
      r.request == ChatRequest(ChatUrl(Endpoint(llm)), RequestModel(arg, llm, probe), messages, true)
      && r.request.model != ""
  {
    var model := RequestModel(arg, llm, probe);
    if model == "" then Abort(NoModelMessage)
    else Post(ChatRequest(ChatUrl(Endpoint(llm)), model, messages, true))
  }

  /** With a model argument or a configured model, the probe's outcome does not matter. */
  lemma ProbeIrrelevant(messages: seq<Message>, arg: string, llm: Option<LlmSettings>, p1: ModelsProbe, p2: ModelsProbe)
    requires arg != "" || ConfiguredModel(llm) != ""
    ensures StartChat(messages, arg, llm, p1) == StartChat(messages, arg, llm, p2)
    ensures StartChat(messages, arg, llm, p1).Post?
  {
  }

  /** What the relay sends to the chat window. */
  datatype StreamEvent = Chunk(text: string) | End | Error(message: string)

  /**
   * One line of the streamed body (main.js:590-603): trimmed, it must start
   * with `data: `, its payload must not be `[DONE]`, and the payload must yield
   * a non-empty content.
   */
  function LineContent(line: string, extract: string -> Option<string>): (r: Option<string>)
    ensures r.Some? ==> r.value != ""
    ensures r.Some? <==>
      var t := Trim(line);
      StartsWith(t, "data: ") && t[6..] != "[DONE]" && extract(t[6..]).Some? && extract(t[6..]).value != ""
    ensures r.Some? ==> r == extract(Trim(line)[6..])
  {
    var trimmed := Trim(line);
    if trimmed == "" || !StartsWith(trimmed, "data: ") then None
    else
      var data := trimmed[6..];
      if data == "[DONE]" then None
      else match extract(data)
        case Some(content) => if content != "" then Some(content) else None
        case None => None
  }

  /** Spaces, tabs or a carriage return around a line do not change what it yields. */
  lemma {:induction false} PaddedLine(pre: string, line: string, post: string, extract: string -> Option<string>)
    requires AllSpace(pre) && AllSpace(post)
    requires line != [] && !IsSpace(line[0]) && !IsSpace(line[|line| - 1])
    ensures LineContent(pre + line + post, extract) == LineContent(line, extract)
  {
    TrimPadded(pre, line, post);
    TrimIdempotentOnCore(line);
  }

  /** The end-of-stream marker yields nothing. */
  lemma DoneLineSkipped(extract: string -> Option<string>)
    ensures LineContent("data: [DONE]", extract) == None
  {
    assert Trim("data: [DONE]") == "data: [DONE]" by {
      TrimIdempotentOnCore("data: [DONE]");
    }
  }

  /** The chunk message one line sends, if any. */
  function LineEvent(line: string, extract: string -> Option<string>): (r: seq<StreamEvent>)
    ensures r == if LineContent(line, extract).Some? then [Chunk(LineContent(line, extract).value)] else []
  {
    match LineContent(line, extract)
    case Some(c) => [Chunk(c)]
    case None => []
  }

  /** The events a run of complete lines produces, in order. */
  function LineEvents(lines: seq<string>, extract: string -> Option<string>): (r: seq<StreamEvent>)
    ensures |r| <= |lines|
    ensures forall i :: 0 <= i < |r| ==> r[i].Chunk? && r[i].text != ""
  {
    if lines == [] then []
    else LineEvents(lines[..|lines| - 1], extract) + LineEvent(lines[|lines| - 1], extract)
  }

  /** One more line taken from the front of a run. */
  lemma LineEventsPrefix(lines: seq<string>, k: nat, extract: string -> Option<string>)
    requires k < |lines|
    ensures LineEvents(lines[..k + 1], extract) == LineEvents(lines[..k], extract) + LineEvent(lines[k], extract)
  {
    assert lines[..k + 1][..k] == lines[..k];
  }

  lemma {:induction false} LineEventsAppend(a: seq<string>, b: seq<string>, extract: string -> Option<string>)
    ensures LineEvents(a + b, extract) == LineEvents(a, extract) + LineEvents(b, extract)
    decreases |b|
  {
    if b == [] {
      assert a + b == a;
    } else {
      var b' := b[..|b| - 1];
      var ev := LineEvent(b[|b| - 1], extract);
      DropLastAppend(a, b);
      assert LineEvents(a + b, extract) == LineEvents(a + b', extract) + ev;
      LineEventsAppend(a, b', extract);
      AppendAssoc(LineEvents(a, extract), LineEvents(b', extract), ev);
    }
  }

  /** A line that yields nothing, a malformed payload among them, is dropped and the stream goes on. */
  lemma LineDropped(before: seq<string>, line: string, after: seq<string>, extract: string -> Option<string>)
    requires LineContent(line, extract).None?
    ensures LineEvents(before + [line] + after, extract) == LineEvents(before, extract) + LineEvents(after, extract)
  {
    var bl := before + [line];
    assert LineEvents(bl, extract) == LineEvents(before, extract) by {
      assert bl[..|bl| - 1] == before;
    }
    LineEventsAppend(bl, after, extract);
  }

  /** The body split into lines at every `\n`. */
  function Lines(body: string): (ls: seq<string>)
    ensures |ls| >= 1
  {
    Split(body, '\n')
  }

  /** The lines that a `\n` has closed. */
  function CompleteLines(body: string): seq<string> {
    Lines(body)[..|Lines(body)| - 1]
  }

  /** What follows the last `\n`: the text kept in `buffer`. */
  function Rest(body: string): (r: string)
    ensures '\n' !in r
  {
    Lines(body)[|Lines(body)| - 1]
  }

  /** The body is its complete lines, each ended by `\n`, followed by the rest. */
  lemma LinesJoin(body: string)
    ensures Join(CompleteLines(body) + [Rest(body)], '\n') == body
  {
    var ls := Lines(body);
    DropLastThenLast(ls);
    assert CompleteLines(body) + [Rest(body)] == ls;
    JoinSplit(body, '\n');
  }

  lemma DropLastThenLast<T>(s: seq<T>)
    requires |s| >= 1
    ensures s[..|s| - 1] + [s[|s| - 1]] == s
  {
  }

  /**
   * Appending a chunk: the complete lines of the longer body are those of the
   * shorter one followed by the complete lines of its rest plus the chunk.
   */
  lemma LinesAppend(body: string, chunk: string)
    ensures CompleteLines(body + chunk) == CompleteLines(body) + CompleteLines(Rest(body) + chunk)
    ensures Rest(body + chunk) == Rest(Rest(body) + chunk)
  {
    var sc := Split(chunk, '\n');
    var sr := [Rest(body) + sc[0]] + sc[1..];
    RestLines(Rest(body), chunk);
    BodyLines(body, chunk);
    DropLastAppend(CompleteLines(body), sr);
  }

  lemma RestLines(rest: string, chunk: string)
    requires '\n' !in rest
    ensures var sc := Split(chunk, '\n');
      Lines(rest + chunk) == [rest + sc[0]] + sc[1..]
  {
    NoSeparatorSplit(rest, '\n');
    SplitAppend(rest, chunk, '\n');
  }

  lemma BodyLines(body: string, chunk: string)
    ensures var sc := Split(chunk, '\n');
      Lines(body + chunk) == CompleteLines(body) + ([Rest(body) + sc[0]] + sc[1..])
  {
    SplitAppend(body, chunk, '\n');
  }

  lemma DropLastAppend<T>(a: seq<T>, b: seq<T>)
    requires |b| >= 1
    ensures (a + b)[..|a + b| - 1] == a + b[..|b| - 1]
    ensures (a + b)[|a + b| - 1] == b[|b| - 1]
  {
  }

  /** `chunks.join('')`. */
  function Concat(chunks: seq<string>): string {
    if chunks == [] then "" else chunks[0] + Concat(chunks[1..])
  }

  lemma {:induction false} ConcatSnoc(chunks: seq<string>, c: string)
    ensures Concat(chunks + [c]) == Concat(chunks) + c
    decreases |chunks|
  {
    if chunks == [] {
      assert [] + [c] == [c];
      assert c + "" == c;
    } else {
      assert (chunks + [c])[1..] == chunks[1..] + [c];
      ConcatSnoc(chunks[1..], c);
    }
  }

  /**
   * The `data` handler of a 200 response run over a sequence of chunks
   * (main.js:583-605): each chunk is appended to the buffer, the complete lines
   * are processed, the rest is carried over. The result is the last buffer and
   * the chunk events sent.
   */
  function Feed(buffer: string, chunks: seq<string>, extract: string -> Option<string>): (string, seq<StreamEvent>)
    decreases |chunks|
  {
    if chunks == [] then (buffer, [])
    else
      var t := buffer + chunks[0];
      var next := Feed(Rest(t), chunks[1..], extract);
      (next.0, LineEvents(CompleteLines(t), extract) + next.1)
  }

  /** What the handler sends depends only on the concatenated body, not on where it was cut into chunks. */
  lemma {:induction false} FeedBody(buffer: string, chunks: seq<string>, extract: string -> Option<string>)
    requires '\n' !in buffer
    ensures Feed(buffer, chunks, extract) ==
      (Rest(buffer + Concat(chunks)), LineEvents(CompleteLines(buffer + Concat(chunks)), extract))
    decreases |chunks|
  {
    if chunks == [] {
      assert buffer + "" == buffer;
      NoSeparatorSplit(buffer, '\n');
    } else {
      var t := buffer + chunks[0];
      var more := Concat(chunks[1..]);
      var whole := buffer + Concat(chunks);
      assert whole == t + more;
      var next := Feed(Rest(t), chunks[1..], extract);
      assert next == (Rest(Rest(t) + more), LineEvents(CompleteLines(Rest(t) + more), extract)) by {
        FeedBody(Rest(t), chunks[1..], extract);
      }
      assert Rest(whole) == Rest(Rest(t) + more) && CompleteLines(whole) == CompleteLines(t) + CompleteLines(Rest(t) + more) by {
        LinesAppend(t, more);
      }
      assert LineEvents(CompleteLines(whole), extract) ==
             LineEvents(CompleteLines(t), extract) + LineEvents(CompleteLines(Rest(t) + more), extract) by {
        LineEventsAppend(CompleteLines(t), CompleteLines(Rest(t) + more), extract);
      }
    }
  }

  lemma ChunkBoundaryIndependence(c1: seq<string>, c2: seq<string>, extract: string -> Option<string>)
    requires Concat(c1) == Concat(c2)
    ensures Feed("", c1, extract) == Feed("", c2, extract)
  {
    FeedBody("", c1, extract);
    FeedBody("", c2, extract);
  }

  /** A fragment after the last `\n` is never parsed: it sends nothing until its `\n` arrives. */
  lemma TrailingFragmentIgnored(chunks: seq<string>, fragment: string, extract: string -> Option<string>)
    requires '\n' !in fragment
    ensures Feed("", chunks + [fragment], extract).1 == Feed("", chunks, extract).1
  {
    var b := Concat(chunks);
    assert Feed("", chunks + [fragment], extract).1 == LineEvents(CompleteLines(b + fragment), extract) by {
      FeedBody("", chunks + [fragment], extract);
      ConcatSnoc(chunks, fragment);
      assert "" + Concat(chunks + [fragment]) == b + fragment;
    }
    assert Feed("", chunks, extract).1 == LineEvents(CompleteLines(b), extract) by {
      FeedBody("", chunks, extract);
      assert "" + b == b;
    }
    assert CompleteLines(b + fragment) == CompleteLines(b) by {
      LinesAppend(b, fragment);
      NoSeparatorSplit(Rest(b) + fragment, '\n');
      assert CompleteLines(b) + [] == CompleteLines(b);
    }
  }

  /** `API Error (<status>): <body>`. */
  function ApiErrorMessage(status: nat, body: string): string {
    "API Error (" + NatToString(status) + "): " + body
  }

  /** The message starts `API Error (`, its status reads back, `): ` follows and the body ends it. */
  lemma ApiErrorStatusReadsBack(status: nat, body: string)
    ensures var m := ApiErrorMessage(status, body);
      StartsWith(m, "API Error (") && EndsWith(m, body)
    ensures var m, digits := ApiErrorMessage(status, body), NatToString(status);
      11 + |digits| + 3 <= |m| && ParseInt(m[11..11 + |digits|]) == Some(status as int)
      && m[11 + |digits|..11 + |digits| + 3] == "): "
  {
    ApiErrorLayout(status, body);
    ParseIntNatToString(status);
  }

  /** Where the parts of the message sit. */
  lemma ApiErrorLayout(status: nat, body: string)
    ensures var m, digits := ApiErrorMessage(status, body), NatToString(status);
      && |m| == 11 + |digits| + 3 + |body|
      && m[..11] == "API Error (" && m[11..11 + |digits|] == digits
      && m[11 + |digits|..11 + |digits| + 3] == "): " && m[|m| - |body|..] == body
  {
    var digits := NatToString(status);
    var m := "API Error (" + digits + "): " + body;
    assert |"API Error ("| == 11;
    assert m[..11] == "API Error (";
    assert m[11..11 + |digits|] == digits;
    assert m[11 + |digits|..11 + |digits| + 3] == "): ";
  }

  /** `接続エラー: <message>`. */
  function ConnectionErrorMessage(message: string): (m: string)
    ensures StartsWith(m, "接続エラー: ") && m[|"接続エラー: "|..] == message
  {
    "接続エラー: " + message
  }

  predicate IsPrefix<T(==)>(a: seq<T>, b: seq<T>) {
    |a| <= |b| && b[..|a|] == a
  }

  /**
   * Which listeners the relay has registered: before the response only the
   * request's `error`; for a 200 response the streaming `data`/`end`/`error`
   * handlers; for any other status the draining `data`/`end` handlers.
   * `Finished` is after the response's `end` or `error`, after a request
   * `error` that came before any response, or when no request was made: the
   * response emits nothing more then. A request `error` during a response
   * leaves that response's listeners registered.
   */
  datatype Phase = AwaitingResponse | Streaming | Draining(status: nat) | Finished

  /**
   * The state of one `send-llm-message` call once its model is resolved
   * (main.js:538-634): the handlers' closure variables, whether the chat
   * window has been destroyed, and two observations: `received`, the body
   * chunks of a 200 response so far, and `outbox`, what has reached the
   * chat window. `request` is what was posted, if anything.
   */
  datatype Relay = Relay(
    phase: Phase, buffer: string, receivedData: bool, errBody: string, senderDestroyed: bool,
    received: seq<string>, outbox: seq<StreamEvent>, request: Option<ChatRequest>)

  /** `sender.send` guarded by `!sender.isDestroyed()`. */
  function Deliver(destroyed: bool, events: seq<StreamEvent>): seq<StreamEvent> {
    if destroyed then [] else events
  }

  /** The relay after model resolution: with no model one error is sent and no request made (main.js:538-541). */
  function Begin(start: ChatStart, destroyed: bool): (r: Relay)
    ensures start.Abort? ==> r.phase == Finished && r.request == None && r.outbox == Deliver(destroyed, [Error(start.message)])
    ensures start.Post? ==> r.phase == AwaitingResponse && r.request == Some(start.request) && r.outbox == []
  {
    if start.Abort? then Relay(Finished, "", false, "", destroyed, [], Deliver(destroyed, [Error(start.message)]), None)
    else Relay(AwaitingResponse, "", false, "", destroyed, [], [], Some(start.request))
  }

  /** The response callback (main.js:567-582): 200 streams, any other status drains the body. */
  function Respond(s: Relay, status: nat): (r: Relay)
    ensures r.outbox == s.outbox && r.senderDestroyed == s.senderDestroyed && r.request == s.request
    ensures s.phase.AwaitingResponse? ==> r.phase == (if status == 200 then Streaming else Draining(status))
    ensures !s.phase.AwaitingResponse? ==> r == s
  {
    if !s.phase.AwaitingResponse? then s
    else s.(phase := if status == 200 then Streaming else Draining(status), buffer := "", errBody := "", receivedData := false)
  }

  /** A `data` event: drained into `errBody` (main.js:570), or split into lines and relayed (main.js:583-605). */
  function ReceiveData(s: Relay, chunk: string, extract: string -> Option<string>): (r: Relay)
    ensures r.phase == s.phase && r.senderDestroyed == s.senderDestroyed && r.request == s.request
    ensures |s.outbox| <= |r.outbox| && r.outbox[..|s.outbox|] == s.outbox
    ensures s.senderDestroyed || !s.phase.Streaming? ==> r.outbox == s.outbox
    ensures s.phase.Draining? ==> r.errBody == s.errBody + chunk
    ensures s.phase.Streaming? ==> r.receivedData && r.received == s.received + [chunk] && '\n' !in r.buffer
  {
    match s.phase
    case Draining(_) => s.(errBody := s.errBody + chunk)
    case Streaming =>
      var text := s.buffer + chunk;
      var sent := Deliver(s.senderDestroyed, LineEvents(CompleteLines(text), extract));
      assert (s.outbox + sent)[..|s.outbox|] == s.outbox;
      s.(receivedData := true, buffer := Rest(text), received := s.received + [chunk], outbox := s.outbox + sent)
    case _ => s
  }

  /**
   * The response's `end` (main.js:571-576, 607-612): a 200 stream sends one
   * `llm-stream-end`, a drained response one `API Error` carrying its status
   * and body. The text left in `buffer` is not parsed.
   */
  function ReceiveEnd(s: Relay): (r: Relay)
    ensures r.senderDestroyed == s.senderDestroyed && r.request == s.request && r.received == s.received
    ensures s.phase.Streaming? ==> r.phase == Finished && r.outbox == s.outbox + Deliver(s.senderDestroyed, [End])
    ensures s.phase.Draining? ==>
      r.phase == Finished && r.outbox == s.outbox + Deliver(s.senderDestroyed, [Error(ApiErrorMessage(s.phase.status, s.errBody))])
    ensures !s.phase.Streaming? && !s.phase.Draining? ==> r == s
  {
    match s.phase
    case Streaming => s.(phase := Finished, outbox := s.outbox + Deliver(s.senderDestroyed, [End]))
    case Draining(status) =>
      s.(phase := Finished, outbox := s.outbox + Deliver(s.senderDestroyed, [Error(ApiErrorMessage(status, s.errBody))]))
    case _ => s
  }

  /**
   * The response's `error` (main.js:615-621), the HTTP parse error some
   * servers provoke when the event stream closes: `llm-stream-end` only if a
   * data event came first. A drained response has no `error` handler and
   * sends nothing.
   */
  function ResponseFailed(s: Relay): (r: Relay)
    ensures r.senderDestroyed == s.senderDestroyed && r.request == s.request && r.received == s.received
    ensures s.phase.Streaming? ==>
      r.phase == Finished && r.outbox == s.outbox + Deliver(s.senderDestroyed || !s.receivedData, [End])
    ensures s.phase.Draining? ==> r.phase == Finished && r.outbox == s.outbox
    ensures !s.phase.Streaming? && !s.phase.Draining? ==> r == s
  {
    match s.phase
    case Streaming => s.(phase := Finished, outbox := s.outbox + Deliver(s.senderDestroyed || !s.receivedData, [End]))
    case Draining(_) => s.(phase := Finished)
    case _ => s
  }

  /**
   * The request's `error` (main.js:624-630): one connection error whenever
   * it fires, as nothing records that the relay is done. Before a response
   * the relay finishes; a response already under way keeps its listeners.
   * There is no listener when no request was made.
   */
  function RequestFailed(s: Relay, message: string): (r: Relay)
    ensures r.senderDestroyed == s.senderDestroyed && r.request == s.request && r.received == s.received
    ensures r.buffer == s.buffer && r.receivedData == s.receivedData && r.errBody == s.errBody
    ensures s.request.Some? ==>
      && r.outbox == s.outbox + Deliver(s.senderDestroyed, [Error(ConnectionErrorMessage(message))])
      && r.phase == (if s.phase.AwaitingResponse? then Finished else s.phase)
    ensures s.request.None? ==> r == s
  {
    if s.request.None? then s
    else
      s.(phase := if s.phase.AwaitingResponse? then Finished else s.phase,
         outbox := s.outbox + Deliver(s.senderDestroyed, [Error(ConnectionErrorMessage(message))]))
  }

  /**
   * The request's `error` in a relay that stops at its first terminal
   * message: one connection error in any phase before the end, nothing after.
   */
  function SettledRequestFailed(s: Relay, message: string): (r: Relay)
    ensures r.senderDestroyed == s.senderDestroyed && r.request == s.request && r.received == s.received
    ensures !s.phase.Finished? ==>
      r.phase == Finished && r.outbox == s.outbox + Deliver(s.senderDestroyed, [Error(ConnectionErrorMessage(message))])
    ensures s.phase.Finished? ==> r == s
  {
    if s.phase.Finished? then s
    else s.(phase := Finished, outbox := s.outbox + Deliver(s.senderDestroyed, [Error(ConnectionErrorMessage(message))]))
  }

  /**
   * The response's `error` in a relay that always ends with one terminal
   * message: `llm-stream-end` after data, a connection error before any,
   * and the `API Error` for a drained response.
   */
  function SettledResponseFailed(s: Relay, message: string): (r: Relay)
    ensures r.senderDestroyed == s.senderDestroyed && r.request == s.request && r.received == s.received
    ensures s.phase.Streaming? ==>
      r.phase == Finished &&
      r.outbox == s.outbox + Deliver(s.senderDestroyed, [if s.receivedData then End else Error(ConnectionErrorMessage(message))])
    ensures s.phase.Draining? ==>
      r.phase == Finished && r.outbox == s.outbox + Deliver(s.senderDestroyed, [Error(ApiErrorMessage(s.phase.status, s.errBody))])
    ensures !s.phase.Streaming? && !s.phase.Draining? ==> r == s
  {
    match s.phase
    case Streaming =>
      s.(phase := Finished,
         outbox := s.outbox + Deliver(s.senderDestroyed, [if s.receivedData then End else Error(ConnectionErrorMessage(message))]))
    case Draining(status) =>
      s.(phase := Finished, outbox := s.outbox + Deliver(s.senderDestroyed, [Error(ApiErrorMessage(status, s.errBody))]))
    case _ => s
  }

  /**
   * What every relay that stops at its first terminal message satisfies:
   * before a 200 response nothing is sent; while it streams, the streaming
   * invariant; what has been sent is chunks, except that the last event may
   * be the single terminal one, and a finished relay with a live window has
   * sent it.
   */
  ghost predicate ValidRelay(s: Relay, extract: string -> Option<string>) {
    && (s.phase.AwaitingResponse? ==> s.outbox == [] && s.received == [] && s.buffer == "" && !s.receivedData)
    && (s.phase.Draining? ==> s.outbox == [] && s.received == [])
    && (s.phase.Streaming? ==>
          StreamInvariant(s.buffer, s.received, s.outbox, s.senderDestroyed, extract) && (s.receivedData || s.received == []))
    && (!s.phase.Finished? ==> AllChunks(s.outbox))
    && AllChunks(s.outbox[..if s.outbox == [] then 0 else |s.outbox| - 1])
    && (s.phase.Finished? && !s.senderDestroyed ==> s.outbox != [] && !s.outbox[|s.outbox| - 1].Chunk?)
  }

  /** A data event keeps the relay valid. */
  lemma DataKeepsValid(s: Relay, chunk: string, extract: string -> Option<string>)
    requires ValidRelay(s, extract)
    ensures ValidRelay(ReceiveData(s, chunk, extract), extract)
  {
    if s.phase.Streaming? {
      StreamStep(s.buffer, s.received, s.outbox, s.senderDestroyed, chunk, extract);
    }
  }

  /** The events Node and Electron deliver to the relay. */
  datatype Event = Response(status: nat) | Data(chunk: string) | ResponseEnd | ResponseError(message: string)
                 | RequestError(message: string) | WindowDestroyed

  /** The relay after one event, as main.js:566-630 handles it. */
  function Step(s: Relay, e: Event, extract: string -> Option<string>): Relay {
    match e
    case Response(status) => Respond(s, status)
    case Data(chunk) => ReceiveData(s, chunk, extract)
    case ResponseEnd => ReceiveEnd(s)
    case ResponseError(_) => ResponseFailed(s)
    case RequestError(message) => RequestFailed(s, message)
    case WindowDestroyed => s.(senderDestroyed := true)
  }

  /** The relay after a sequence of events. */
  function Run(s: Relay, events: seq<Event>, extract: string -> Option<string>): Relay
    decreases |events|
  {
    if events == [] then s else Run(Step(s, events[0], extract), events[1..], extract)
  }

  /**
   * The server dropping the connection in the middle of a stream: the
   * request's `error` sends a connection error, and the response's `error`
   * that follows still sends `llm-stream-end`, so the window receives two
   * terminal messages.
   */
  lemma TwoTerminals(request: ChatRequest, chunk: string, reset: string, aborted: string,
                     extract: string -> Option<string>)
    ensures var out := Run(Begin(Post(request), false),
                           [Response(200), Data(chunk), RequestError(reset), ResponseError(aborted)], extract).outbox;
      out == LineEvents(CompleteLines(chunk), extract) + [Error(ConnectionErrorMessage(reset)), End]
  {
    var events := [Response(200), Data(chunk), RequestError(reset), ResponseError(aborted)];
    var s0 := Begin(Post(request), false);
    var s2 := Step(Step(s0, events[0], extract), events[1], extract);
    assert s2 == ReceiveData(Respond(s0, 200), chunk, extract);
    FirstChunk(request, chunk, extract);
    BrokenStream(s2, reset, aborted, extract);
    RunFour(s0, events, extract);
  }

  /** A 200 response and its first data event. */
  lemma FirstChunk(request: ChatRequest, chunk: string, extract: string -> Option<string>)
    ensures var s := ReceiveData(Respond(Begin(Post(request), false), 200), chunk, extract);
      && s.phase.Streaming? && s.receivedData && s.request.Some? && !s.senderDestroyed
      && s.outbox == LineEvents(CompleteLines(chunk), extract)
  {
    assert "" + chunk == chunk;
  }

  /** A request `error` and then a response `error` on a stream that has data. */
  lemma BrokenStream(s: Relay, reset: string, aborted: string, extract: string -> Option<string>)
    requires s.phase.Streaming? && s.receivedData && s.request.Some? && !s.senderDestroyed
    ensures Step(Step(s, RequestError(reset), extract), ResponseError(aborted), extract).outbox ==
      s.outbox + [Error(ConnectionErrorMessage(reset)), End]
  {
    var s3 := RequestFailed(s, reset);
    assert s3.phase.Streaming? && s3.receivedData && !s3.senderDestroyed;
    assert ResponseFailed(s3).outbox == s.outbox + [Error(ConnectionErrorMessage(reset))] + [End];
  }

  /** Four events, one step at a time. */
  lemma RunFour(s: Relay, events: seq<Event>, extract: string -> Option<string>)
    requires |events| == 4
    ensures Run(s, events, extract) ==
      Step(Step(Step(Step(s, events[0], extract), events[1], extract), events[2], extract), events[3], extract)
  {
    var r1 := Step(s, events[0], extract);
    var r2 := Step(r1, events[1], extract);
    var r3 := Step(r2, events[2], extract);
    var t1 := events[1..];
    var t2 := t1[1..];
    var t3 := t2[1..];
    assert t1[0] == events[1] && t2[0] == events[2] && t3[0] == events[3] && t3[1..] == [];
    assert Run(s, events, extract) == Run(r1, t1, extract);
    assert Run(r1, t1, extract) == Run(r2, t2, extract);
    assert Run(r2, t2, extract) == Run(r3, t3, extract);
  }

  /**
   * The relay with the two corrections: it stops at its first terminal
   * message, and a response `error` always sends one.
   */
  function SettledStep(s: Relay, e: Event, extract: string -> Option<string>): Relay {
    match e
    case Response(status) => Respond(s, status)
    case Data(chunk) => ReceiveData(s, chunk, extract)
    case ResponseEnd => ReceiveEnd(s)
    case ResponseError(message) => SettledResponseFailed(s, message)
    case RequestError(message) => SettledRequestFailed(s, message)
    case WindowDestroyed => s.(senderDestroyed := true)
  }

  function SettledRun(s: Relay, events: seq<Event>, extract: string -> Option<string>): Relay
    decreases |events|
  {
    if events == [] then s else SettledRun(SettledStep(s, events[0], extract), events[1..], extract)
  }

  lemma StepKeepsValid(s: Relay, e: Event, extract: string -> Option<string>)
    requires ValidRelay(s, extract)
    ensures ValidRelay(SettledStep(s, e, extract), extract)
  {
    match e
    case Response(status) =>
    case Data(chunk) => DataKeepsValid(s, chunk, extract);
    case ResponseEnd => TerminalKeepsValid(s, ReceiveEnd(s), extract);
    case ResponseError(message) => TerminalKeepsValid(s, SettledResponseFailed(s, message), extract);
    case RequestError(message) => TerminalKeepsValid(s, SettledRequestFailed(s, message), extract);
    case WindowDestroyed =>
  }

  /** Finishing with one terminal event after the chunks keeps the relay valid. */
  lemma TerminalKeepsValid(s: Relay, r: Relay, extract: string -> Option<string>)
    requires ValidRelay(s, extract)
    requires r == s || (r.phase.Finished? && !s.phase.Finished? && r.senderDestroyed == s.senderDestroyed)
    requires r != s && s.senderDestroyed ==> r.outbox == s.outbox
    requires r != s && !s.senderDestroyed ==>
      |r.outbox| == |s.outbox| + 1 && r.outbox[..|s.outbox|] == s.outbox && !r.outbox[|s.outbox|].Chunk?
    ensures ValidRelay(r, extract)
  {
    if r != s {
      var n := if r.outbox == [] then 0 else |r.outbox| - 1;
      forall i | 0 <= i < n ensures r.outbox[..n][i].Chunk? {
        assert r.outbox[i] == s.outbox[i];
      }
    }
  }

  lemma {:induction false} RunKeepsValid(s: Relay, events: seq<Event>, extract: string -> Option<string>)
    requires ValidRelay(s, extract)
    ensures ValidRelay(SettledRun(s, events, extract), extract)
    decreases |events|
  {
    if events != [] {
      StepKeepsValid(s, events[0], extract);
      RunKeepsValid(SettledStep(s, events[0], extract), events[1..], extract);
    }
  }

  /**
   * Whatever events arrive, in whatever order, the corrected relay sends the
   * chat window chunks and at most one terminal event (`llm-stream-end` or
   * `llm-stream-error`), which is the last thing it sends; once it has
   * finished with the window open, that terminal event has been sent.
   */
  lemma AtMostOneTerminal(start: ChatStart, destroyed: bool, events: seq<Event>, extract: string -> Option<string>)
    ensures var r := SettledRun(Begin(start, destroyed), events, extract);
      && (forall i :: 0 <= i < |r.outbox| - 1 ==> r.outbox[i].Chunk?)
      && (r.phase.Finished? && !r.senderDestroyed ==> r.outbox != [] && !r.outbox[|r.outbox| - 1].Chunk?)
  {
    RunKeepsValid(Begin(start, destroyed), events, extract);
    var out := SettledRun(Begin(start, destroyed), events, extract).outbox;
    forall i | 0 <= i < |out| - 1 ensures out[i].Chunk? {
      assert out[i] == out[..|out| - 1][i];
    }
  }

  /** The relay after a run of data events. */
  function ReceiveAll(s: Relay, chunks: seq<string>, extract: string -> Option<string>): Relay
    decreases |chunks|
  {
    if chunks == [] then s else ReceiveAll(ReceiveData(s, chunks[0], extract), chunks[1..], extract)
  }

  /** Data events on a 200 response keep it streaming and record the chunks. */
  lemma {:induction false} StreamShape(s: Relay, chunks: seq<string>, extract: string -> Option<string>)
    requires s.phase.Streaming?
    ensures var r := ReceiveAll(s, chunks, extract);
      r.phase.Streaming? && r.senderDestroyed == s.senderDestroyed && r.received == s.received + chunks
    decreases |chunks|
  {
    if chunks == [] {
      assert s.received + chunks == s.received;
    } else {
      var s' := ReceiveData(s, chunks[0], extract);
      StreamShape(s', chunks[1..], extract);
      assert s.received + chunks == s'.received + chunks[1..] by {
        assert [chunks[0]] + chunks[1..] == chunks;
        AppendAssoc(s.received, [chunks[0]], chunks[1..]);
      }
    }
  }

  /** `receivedData` is set exactly when some data event has arrived. */
  lemma {:induction false} StreamMarksData(s: Relay, chunks: seq<string>, extract: string -> Option<string>)
    requires s.phase.Streaming?
    ensures ReceiveAll(s, chunks, extract).receivedData == (s.receivedData || chunks != [])
    decreases |chunks|
  {
    if chunks != [] {
      var s' := ReceiveData(s, chunks[0], extract);
      StreamMarksData(s', chunks[1..], extract);
    }
  }

  lemma {:induction false} ReceiveAllKeepsValid(s: Relay, chunks: seq<string>, extract: string -> Option<string>)
    requires ValidRelay(s, extract)
    ensures ValidRelay(ReceiveAll(s, chunks, extract), extract)
    decreases |chunks|
  {
    if chunks != [] {
      DataKeepsValid(s, chunks[0], extract);
      ReceiveAllKeepsValid(ReceiveData(s, chunks[0], extract), chunks[1..], extract);
    }
  }

  /**
   * While a 200 response streams to a live window, the rest it carries and
   * what the window has received are exactly what `Feed` computes from all
   * the chunks so far.
   */
  lemma LiveStreamIsFeed(s: Relay, extract: string -> Option<string>)
    requires ValidRelay(s, extract) && s.phase.Streaming? && !s.senderDestroyed
    ensures (s.buffer, s.outbox) == Feed("", s.received, extract)
  {
    FeedBody("", s.received, extract);
    assert "" + Concat(s.received) == Concat(s.received);
  }

  /** Data events on a drained response only accumulate its body. */
  lemma {:induction false} DrainRun(s: Relay, chunks: seq<string>, extract: string -> Option<string>)
    requires s.phase.Draining?
    ensures ReceiveAll(s, chunks, extract) == s.(errBody := s.errBody + Concat(chunks))
    decreases |chunks|
  {
    if chunks == [] {
      assert s.errBody + "" == s.errBody;
    } else {
      var s' := ReceiveData(s, chunks[0], extract);
      DrainRun(s', chunks[1..], extract);
      assert s.errBody + Concat(chunks) == (s.errBody + chunks[0]) + Concat(chunks[1..]);
    }
  }

  /** The live window's events after a 200 response and its data chunks. */
  lemma StreamedEvents(request: ChatRequest, chunks: seq<string>, extract: string -> Option<string>)
    ensures var s := ReceiveAll(Respond(Begin(Post(request), false), 200), chunks, extract);
      && s.phase.Streaming? && !s.senderDestroyed && s.receivedData == (chunks != [])
      && s.outbox == LineEvents(CompleteLines(Concat(chunks)), extract)
  {
    var s0 := Respond(Begin(Post(request), false), 200);
    var s := ReceiveAll(s0, chunks, extract);
    StreamShape(s0, chunks, extract);
    StreamMarksData(s0, chunks, extract);
    ReceiveAllKeepsValid(s0, chunks, extract);
    assert s.received == chunks by {
      assert [] + chunks == chunks;
    }
  }

  /**
   * A 200 response that ends normally: the live window receives the events
   * of the complete lines of the whole body, then one `llm-stream-end`.
   */
  lemma StreamCompletes(request: ChatRequest, chunks: seq<string>, extract: string -> Option<string>)
    ensures var s := ReceiveAll(Respond(Begin(Post(request), false), 200), chunks, extract);
      ReceiveEnd(s).outbox == LineEvents(CompleteLines(Concat(chunks)), extract) + [End]
  {
    StreamedEvents(request, chunks, extract);
  }

  /**
   * A 200 response whose stream fails: the window receives the same chunk
   * events, then `llm-stream-end` when at least one data event arrived and
   * nothing more otherwise.
   */
  lemma StreamBreaks(request: ChatRequest, chunks: seq<string>, extract: string -> Option<string>)
    ensures var s := ReceiveAll(Respond(Begin(Post(request), false), 200), chunks, extract);
      ResponseFailed(s).outbox ==
        LineEvents(CompleteLines(Concat(chunks)), extract) + (if chunks == [] then [] else [End])
  {
    StreamedEvents(request, chunks, extract);
  }

  /**
   * The corrected response `error` on a 200 stream: the same chunk events,
   * then `llm-stream-end` after data and a connection error before any, so
   * the window always learns that the request is over.
   */
  lemma SettledStreamBreaks(request: ChatRequest, chunks: seq<string>, message: string,
                            extract: string -> Option<string>)
    ensures var s := ReceiveAll(Respond(Begin(Post(request), false), 200), chunks, extract);
      SettledResponseFailed(s, message).outbox ==
        LineEvents(CompleteLines(Concat(chunks)), extract) +
        [if chunks == [] then Error(ConnectionErrorMessage(message)) else End]
  {
    StreamedEvents(request, chunks, extract);
  }

  /** Any other status: the window receives exactly one `API Error` with that status and the whole body. */
  lemma ErrorStatusReported(request: ChatRequest, status: nat, chunks: seq<string>, extract: string -> Option<string>)
    requires status != 200
    ensures var s := ReceiveAll(Respond(Begin(Post(request), false), status), chunks, extract);
      ReceiveEnd(s).outbox == [Error(ApiErrorMessage(status, Concat(chunks)))]
  {
    var s0 := Respond(Begin(Post(request), false), status);
    DrainRun(s0, chunks, extract);
    assert "" + Concat(chunks) == Concat(chunks);
  }

  /** Once the window is destroyed, no event sends it anything more. */
  lemma {:induction false} DestroyedWindowSilent(s: Relay, events: seq<Event>, extract: string -> Option<string>)
    requires s.senderDestroyed
    ensures Run(s, events, extract).outbox == s.outbox
    decreases |events|
  {
    if events != [] {
      DestroyedWindowSilent(Step(s, events[0], extract), events[1..], extract);
    }
  }

  /**
   * The relay of main.js:538-634 as an object: the closure variables become
   * fields, each registered handler a method that takes the relay one step.
   */
  class StreamRelay {
    const extract: string -> Option<string>
    var phase: Phase
    var buffer: string
    var receivedData: bool
    var errBody: string
    var senderDestroyed: bool
    ghost var received: seq<string>
    ghost var outbox: seq<StreamEvent>
    var request: Option<ChatRequest>

    ghost function State(): Relay
      reads this
    {
      Relay(phase, buffer, receivedData, errBody, senderDestroyed, received, outbox, request)
    }

    constructor (start: ChatStart, extract: string -> Option<string>, senderDestroyed: bool)
      ensures this.extract == extract
      ensures State() == Begin(start, senderDestroyed)
    {
      this.extract := extract;
      this.senderDestroyed := senderDestroyed;
      buffer, errBody, receivedData, received := "", "", false, [];
      if start.Abort? {
        phase, request := Finished, None;
        outbox := if senderDestroyed then [] else [Error(start.message)];
      } else {
        phase, outbox, request := AwaitingResponse, [], Some(start.request);
      }
    }

    method OnResponse(status: nat)
      modifies this
      ensures State() == Respond(old(State()), status)
    {
      if phase.AwaitingResponse? {
        errBody, buffer, receivedData := "", "", false;
        phase := if status == 200 then Streaming else Draining(status);
      }
    }

    method OnData(chunk: string)
      modifies this
      ensures State() == ReceiveData(old(State()), chunk, extract)
    {
      if phase.Draining? {
        errBody := errBody + chunk;
      } else if phase.Streaming? {
        receivedData := true;
        var lines := Split(buffer + chunk, '\n');
        assert lines == Lines(buffer + chunk);
        assert lines[..|lines| - 1] == CompleteLines(buffer + chunk) && lines[|lines| - 1] == Rest(buffer + chunk);
        buffer := lines[|lines| - 1];
        received := received + [chunk];
        SendLines(lines[..|lines| - 1]);
      }
    }

    /** The loop over the complete lines of one data event (main.js:589-604); `LineContent` is its body's filter. */
    method SendLines(lines: seq<string>)
      modifies this`outbox
      ensures outbox == old(outbox) + Deliver(senderDestroyed, LineEvents(lines, extract))
    {
      for k := 0 to |lines|
        invariant senderDestroyed ==> outbox == old(outbox)
        invariant !senderDestroyed ==> outbox == old(outbox) + LineEvents(lines[..k], extract)
      {
        LineEventsPrefix(lines, k, extract);
        var content := LineContent(lines[k], extract);
        ghost var done := LineEvents(lines[..k], extract);
        if content.Some? && !senderDestroyed {
          outbox := outbox + [Chunk(content.value)];
          AppendAssoc(old(outbox), done, [Chunk(content.value)]);
        } else if content.None? {
          assert done + [] == done;
        }
      }
      assert lines[..|lines|] == lines;
    }

    method OnEnd()
      modifies this
      ensures State() == ReceiveEnd(old(State()))
    {
      if phase.Streaming? || phase.Draining? {
        if !senderDestroyed {
          var event := if phase.Streaming? then End else Error(ApiErrorMessage(phase.status, errBody));
          outbox := outbox + [event];
        }
        phase := Finished;
      }
    }

    method OnResponseError()
      modifies this
      ensures State() == ResponseFailed(old(State()))
    {
      if phase.Streaming? || phase.Draining? {
        if phase.Streaming? && receivedData && !senderDestroyed {
          outbox := outbox + [End];
        }
        phase := Finished;
      }
    }

    method OnRequestError(message: string)
      modifies this
      ensures State() == RequestFailed(old(State()), message)
    {
      if request.Some? {
        if !senderDestroyed {
          outbox := outbox + [Error(ConnectionErrorMessage(message))];
        }
        if phase.AwaitingResponse? {
          phase := Finished;
        }
      }
    }

    /** The chat window goes away: from now on nothing more reaches it. */
    method DestroySender()
      modifies this
      ensures State() == Step(old(State()), WindowDestroyed, extract)
    {
      senderDestroyed := true;
    }
  }

  /** Every event is a chunk. */
  predicate AllChunks(events: seq<StreamEvent>) {
    forall i :: 0 <= i < |events| ==> events[i].Chunk?
  }

  /**
   * What holds while a 200 response streams: `buffer` is the rest of the body
   * after its last `\n`, and the window has received the chunk events of the
   * complete lines, all of them while it lives, a prefix once destroyed.
   */
  ghost predicate StreamInvariant(buffer: string, received: seq<string>, outbox: seq<StreamEvent>,
                                  destroyed: bool, extract: string -> Option<string>)
  {
    var events := LineEvents(CompleteLines(Concat(received)), extract);
    && buffer == Rest(Concat(received))
    && IsPrefix(outbox, events)
    && (!destroyed ==> outbox == events)
    && AllChunks(outbox)
  }

  /** A data event keeps the streaming invariant, and the live window's events are those of `Feed`. */
  lemma StreamStep(buffer: string, received: seq<string>, outbox: seq<StreamEvent>, destroyed: bool,
                   chunk: string, extract: string -> Option<string>)
    requires StreamInvariant(buffer, received, outbox, destroyed, extract)
    ensures var text := buffer + chunk;
      var outbox' := outbox + (if destroyed then [] else LineEvents(CompleteLines(text), extract));
      && StreamInvariant(Rest(text), received + [chunk], outbox', destroyed, extract)
      && (!destroyed ==> Feed("", received + [chunk], extract) == (Rest(text), outbox'))
  {
    var text := buffer + chunk;
    var added := LineEvents(CompleteLines(text), extract);
    var events := LineEvents(CompleteLines(Concat(received)), extract);
    RelayStep(received, chunk, extract);
    if destroyed {
      assert outbox + [] == outbox;
      PrefixExtends(outbox, events, added);
    } else {
      assert outbox == events;
    }
  }

  /** One more data chunk, in terms of the rest carried over from the chunks before it. */
  lemma RelayStep(received: seq<string>, chunk: string, extract: string -> Option<string>)
    ensures var body := Concat(received + [chunk]);
      var text := Rest(Concat(received)) + chunk;
      && body == Concat(received) + chunk
      && Rest(body) == Rest(text)
      && LineEvents(CompleteLines(body), extract) ==
         LineEvents(CompleteLines(Concat(received)), extract) + LineEvents(CompleteLines(text), extract)
      && Feed("", received + [chunk], extract) == (Rest(body), LineEvents(CompleteLines(body), extract))
  {
    var body := Concat(received + [chunk]);
    var text := Rest(Concat(received)) + chunk;
    assert body == Concat(received) + chunk by {
      ConcatSnoc(received, chunk);
    }
    assert Rest(body) == Rest(text) && CompleteLines(body) == CompleteLines(Concat(received)) + CompleteLines(text) by {
      LinesAppend(Concat(received), chunk);
    }
    LineEventsAppend(CompleteLines(Concat(received)), CompleteLines(text), extract);
    assert Feed("", received + [chunk], extract) == (Rest(body), LineEvents(CompleteLines(body), extract)) by {
      FeedBody("", received + [chunk], extract);
      assert "" + body == body;
    }
  }

  lemma AppendAssoc<T>(a: seq<T>, b: seq<T>, c: seq<T>)
    ensures (a + b) + c == a + (b + c)
  {
  }

  lemma PrefixExtends<T>(a: seq<T>, b: seq<T>, c: seq<T>)
    requires IsPrefix(a, b)
    ensures IsPrefix(a, b + c)
  {
    assert (b + c)[..|a|] == b[..|a|];
  }
}
