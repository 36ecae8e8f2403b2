/** The JSON-RPC engine of the Model Context Protocol server: one line of
    standard input in, at most one response out. The server keeps no session
    state, so each line is handled by a pure step and a session is the
    concatenation of the steps, after the startup announcement. */
module Protocol {
  import opened Base
  import opened Json
  import opened Catalog

  const JsonRpcVersion: string := "2.0"
  const ProtocolVersion: string := "2024-11-05"
  const ServerName: string := "medium-stats"
  const ServerVersion: string := "1.0.0"

  /** The error codes the server sends. They are strings, not JSON-RPC integers. */
  const ParseErrorCode: string := "parse_error"
  const MethodNotFoundCode: string := "method_not_found"
  const InvalidParamsCode: string := "invalid_params"
  const InternalErrorCode: string := "internal_error"

  const InvalidJsonMessage: string := "Invalid JSON request"
  const MissingNameMessage: string := "Missing 'name' parameter"

  /** The methods the server answers, plus the one notification it accepts. */
  const Methods: seq<string> := ["initialize", "notifications/initialized", "tools/list", "tools/call", "ping"]

  /** A request once bound: an absent or null `id` makes it a notification,
      an absent or null `method` reads as the empty name. */
  datatype Request = Request(id: Option<Json>, methodName: string, params: Option<map<string, Json>>)

  datatype McpError = McpError(code: string, message: string)

  datatype ContentItem = ContentItem(kind: string, text: string)

  datatype ToolProperty = ToolProperty(typeName: string, description: string)

  /** A tool's input schema: its properties in declaration order and the
      keys of the required ones. */
  datatype ToolInputSchema = ToolInputSchema(
    schemaType: string,
    properties: seq<(string, ToolProperty)>,
    required: seq<string>)

  datatype McpTool = McpTool(name: string, description: string, inputSchema: ToolInputSchema)

  datatype Payload =
    | InitializePayload
    | ToolsListPayload(tools: seq<McpTool>)
    | ToolCallPayload(content: seq<ContentItem>)
    | EmptyPayload

  /** A response carries a result or an error, never both. */
  datatype Body = ResultBody(payload: Payload) | ErrorBody(error: McpError)

  datatype McpResponse = McpResponse(jsonrpc: string, id: Option<Json>, body: Body)

  /** What the server writes: the server description it announces on
      startup, or a response. */
  datatype Outgoing = Announcement | Reply(response: McpResponse)

  /** The tool handler the engine is given: the tool catalog, and the call
      that turns a tool name and its arguments into a text. */
  datatype ToolHandler = ToolHandler(
    definitions: seq<ToolDefinition>,
    call: (string, map<string, Json>) -> string)

  /** The JSON reader and writer: `parse` reads a document (`None` for text
      that is not one JSON value), `rawText` writes a value back, and
      `conversionError` is the message of the exception raised when a
      non-object is read as the tool's argument map. */
  datatype Codec = Codec(
    parse: string -> Option<Json>,
    rawText: Json -> string,
    conversionError: Json -> string)

  function Respond(id: Option<Json>, body: Body): Outgoing {
    Reply(McpResponse(JsonRpcVersion, id, body))
  }

  function Fail(id: Option<Json>, code: string, message: string): Outgoing {
    Respond(id, ErrorBody(McpError(code, message)))
  }

  /** The response to a line that is not a request: it has no id. */
  function ParseErrorReply(): Outgoing {
    Fail(None, ParseErrorCode, InvalidJsonMessage)
  }

  /** An exception while handling a request: reported only if the request has an id. */
  function Internal(id: Option<Json>, message: string): (out: seq<Outgoing>)
    ensures |out| == 1 <==> id.Some?
    ensures |out| <= 1
    ensures forall k :: 0 <= k < |out| ==>
              && out[k].Reply?
              && out[k].response.id == id
              && out[k].response.body == ErrorBody(McpError(InternalErrorCode, message))
  {
    if id.None? then [] else [Fail(id, InternalErrorCode, message)]
  }

  // ---------------------------------------------------------------- reading

  /** The white space a JSON document may consist of. */
  predicate IsJsonWhite(c: char) {
    c == ' ' || c == '\t' || c == '\n' || c == '\r'
  }

  /** Reads a line as a JSON document. A line of nothing but white space holds
      no JSON value and so never reads as one. */
  function ReadDocument(codec: Codec, line: string): (r: Option<Json>)
    ensures (forall k :: 0 <= k < |line| ==> IsJsonWhite(line[k])) ==> r.None?
  {
    if forall k :: 0 <= k < |line| ==> IsJsonWhite(line[k]) then None else codec.parse(line)
  }

  predicate StringOrNull(j: Json) {
    j.JString? || j.JNull?
  }

  predicate ObjectOrNull(j: Json) {
    j.JObject? || j.JNull?
  }

  /** How binding a document to a request ended. */
  datatype Bound = Parsed(request: Request) | Malformed | NullRequest

  /** Binds a JSON document to a request. The document must be an object (or
      `null`, which yields no request); `jsonrpc` and `method`, when present,
      must be strings or null and `params` an object or null. Other members
      are ignored. */
  function Bind(doc: Json): (b: Bound)
    ensures b.NullRequest? <==> doc.JNull?
    ensures b.Parsed? ==> doc.JObject?
    ensures b.Parsed? ==> (b.request.id.Some? <==> "id" in doc.fields && !doc.fields["id"].JNull?)
    ensures b.Parsed? && b.request.id.Some? ==> b.request.id.value == doc.fields["id"]
    ensures b.Parsed? && "method" in doc.fields && doc.fields["method"].JString? ==>
              b.request.methodName == doc.fields["method"].s
    ensures b.Parsed? ==> (b.request.params.Some? <==> "params" in doc.fields && doc.fields["params"].JObject?)
    ensures b.Parsed? && b.request.params.Some? ==> doc.fields["params"] == JObject(b.request.params.value)
    ensures b.Parsed? && ("method" !in doc.fields || doc.fields["method"].JNull?) ==> b.request.methodName == ""
    ensures !doc.JObject? && !doc.JNull? ==> b.Malformed?
    ensures doc.JObject? ==>
              (b.Malformed? <==>
                 || ("jsonrpc" in doc.fields && !StringOrNull(doc.fields["jsonrpc"]))
                 || ("method" in doc.fields && !StringOrNull(doc.fields["method"]))
                 || ("params" in doc.fields && !ObjectOrNull(doc.fields["params"])))
  {
    match doc
    case JNull => NullRequest
    case JObject(f) =>
      if || ("jsonrpc" in f && !StringOrNull(f["jsonrpc"]))
         || ("method" in f && !StringOrNull(f["method"]))
         || ("params" in f && !ObjectOrNull(f["params"]))
      then Malformed
      else
        Parsed(Request(
          if "id" in f && !f["id"].JNull? then Some(f["id"]) else None,
          if "method" in f && f["method"].JString? then f["method"].s else "",
          if "params" in f && f["params"].JObject? then Some(f["params"].fields) else None))
    case _ => Malformed
  }

  /** The document a client sends for a request. */
  function RequestDocument(req: Request): Json {
    JObject(
      map["jsonrpc" := JString(JsonRpcVersion), "method" := JString(req.methodName)]
      + (if req.id.Some? then map["id" := req.id.value] else map[])
      + (if req.params.Some? then map["params" := JObject(req.params.value)] else map[]))
  }

  /** Binding the document of a request gives the request back. */
  lemma BindRequestDocument(req: Request)
    requires req.id.Some? ==> !req.id.value.JNull?
    ensures Bind(RequestDocument(req)) == Parsed(req)
  {
    var f := RequestDocument(req).fields;
    assert "jsonrpc" in f && f["jsonrpc"] == JString(JsonRpcVersion);
    assert "method" in f && f["method"] == JString(req.methodName);
    assert "id" in f <==> req.id.Some?;
    assert "params" in f <==> req.params.Some?;
  }

  // ------------------------------------------------------------- tools/list

  /** The keys of the parameters marked required, in declaration order. */
  function RequiredKeysOf(ps: seq<(string, ToolParameter)>): (keys: seq<string>)
    ensures |keys| <= |ps|
    ensures forall key :: key in keys <==>
              exists k :: 0 <= k < |ps| && ps[k].0 == key && ps[k].1.required
    decreases |ps|
  {
    if |ps| == 0 then []
    else
      var rest := RequiredKeysOf(ps[1..]);
      assert forall k :: 0 <= k < |ps[1..]| ==> ps[1..][k] == ps[k + 1];
      (if ps[0].1.required then [ps[0].0] else []) + rest
  }

  /** Filtering a concatenation filters each part in turn. */
  lemma {:induction false} RequiredKeysOfAppend(a: seq<(string, ToolParameter)>, b: seq<(string, ToolParameter)>)
    ensures RequiredKeysOf(a + b) == RequiredKeysOf(a) + RequiredKeysOf(b)
    decreases |a|
  {
    if |a| == 0 {
      assert a + b == b;
    } else {
      assert (a + b)[0] == a[0];
      assert (a + b)[1..] == a[1..] + b;
      RequiredKeysOfAppend(a[1..], b);
    }
  }

  /** One parameter contributes its key exactly when it is required. With
      `RequiredKeysOfAppend` this pins the required list down to the keys
      of the required parameters, in declaration order, each once. */
  lemma RequiredKeysOfOne(p: (string, ToolParameter))
    ensures RequiredKeysOf([p]) == if p.1.required then [p.0] else []
  {
    assert [p][1..] == [];
  }

  function Keys(ps: seq<(string, ToolParameter)>): (keys: seq<string>)
    ensures |keys| == |ps|
    ensures forall k :: 0 <= k < |ps| ==> keys[k] == ps[k].0
  {
    seq(|ps|, k requires 0 <= k < |ps| => ps[k].0)
  }

  /** The first key that repeats an earlier one: where building the
      property dictionary throws. */
  function FirstRepeat(keys: seq<string>): (r: Option<string>)
    ensures r.None? <==> forall i, j :: 0 <= i < j < |keys| ==> keys[i] != keys[j]
    ensures r.Some? ==> exists j :: 0 <= j < |keys| && keys[j] == r.value && r.value in keys[..j]
                                    && forall i :: 0 <= i < j ==> keys[i] !in keys[..i]
    decreases |keys|
  {
    if |keys| == 0 then None
    else
      var init := keys[..|keys| - 1];
      var last := keys[|keys| - 1];
      match FirstRepeat(init)
      case Some(x) =>
        var j :| 0 <= j < |init| && init[j] == x && x in init[..j]
                 && forall i :: 0 <= i < j ==> init[i] !in init[..i];
        assert keys[..j] == init[..j];
        forall i | 0 <= i < j
          ensures keys[i] !in keys[..i]
        {
          assert keys[..i] == init[..i];
        }
        Some(x)
      case None =>
        if last in init then
          assert keys[..|keys| - 1] == init;
          forall i | 0 <= i < |init|
            ensures keys[i] !in keys[..i]
          {
            assert forall k :: 0 <= k < i ==> keys[..i][k] == init[k] != init[i];
          }
          Some(last)
        else None
  }

  function DuplicateKeyMessage(key: string): string {
    "An item with the same key has already been added. Key: " + key
  }

  /** A definition as the protocol lists it. */
  function ToMcpTool(d: ToolDefinition): (t: McpTool)
    ensures t.name == d.name && t.description == d.description
    ensures t.inputSchema.schemaType == "object"
    ensures |t.inputSchema.properties| == |d.parameters|
    ensures forall k :: 0 <= k < |d.parameters| ==>
              && t.inputSchema.properties[k].0 == d.parameters[k].0
              && t.inputSchema.properties[k].1 == ToolProperty(d.parameters[k].1.typeName, d.parameters[k].1.description)
    ensures t.inputSchema.required == RequiredKeysOf(d.parameters)
  {
    var ps := d.parameters;
    McpTool(d.name, d.description, ToolInputSchema(
      "object",
      seq(|ps|, k requires 0 <= k < |ps| => (ps[k].0, ToolProperty(ps[k].1.typeName, ps[k].1.description))),
      RequiredKeysOf(ps)))
  }

  /** The tools/list result: every definition projected, in order, unless one
      declares a parameter key twice. */
  function ListTools(defs: seq<ToolDefinition>): (r: Result<seq<McpTool>>)
    ensures r.Ok? <==> forall k :: 0 <= k < |defs| ==> FirstRepeat(Keys(defs[k].parameters)).None?
    ensures r.Ok? ==> |r.value| == |defs|
    ensures r.Ok? ==> forall k :: 0 <= k < |defs| ==> r.value[k] == ToMcpTool(defs[k])
    decreases |defs|
  {
    if |defs| == 0 then Ok([])
    else
      assert forall k :: 1 <= k < |defs| ==> defs[k] == defs[1..][k - 1];
      match FirstRepeat(Keys(defs[0].parameters))
      case Some(key) => Throw(DuplicateKeyMessage(key))
      case None =>
        var rest :- ListTools(defs[1..]);
        Ok([ToMcpTool(defs[0])] + rest)
  }

  // ------------------------------------------------------------- tools/call

  /** The text of a JSON value as `JsonElement.ToString` gives it. */
  function ElementText(codec: Codec, j: Json): string {
    match j
    case JString(s) => s
    case JBool(b) => if b then "True" else "False"
    case JNull => ""
    case _ => codec.rawText(j)
  }

  function ToolCallReply(h: ToolHandler, codec: Codec, req: Request): (out: seq<Outgoing>)
    ensures |out| <= 1
    ensures req.params.None? || "name" !in req.params.value ==>
              out == [Fail(req.id, InvalidParamsCode, MissingNameMessage)]
    ensures req.params.Some? && "name" in req.params.value ==>
              var p := req.params.value;
              var name := ElementText(codec, p["name"]);
              && ("arguments" in p && !ObjectOrNull(p["arguments"]) ==>
                    out == Internal(req.id, codec.conversionError(p["arguments"])))
              && ("arguments" in p && p["arguments"].JObject? ==>
                    out == [Respond(req.id, ResultBody(ToolCallPayload([ContentItem("text", h.call(name, p["arguments"].fields))])))])
              && ("arguments" !in p || p["arguments"].JNull? ==>
                    out == [Respond(req.id, ResultBody(ToolCallPayload([ContentItem("text", h.call(name, map[]))])))])
  {
    if req.params.None? || "name" !in req.params.value then [Fail(req.id, InvalidParamsCode, MissingNameMessage)]
    else
      var p := req.params.value;
      var name := ElementText(codec, p["name"]);
      if "arguments" in p && !ObjectOrNull(p["arguments"]) then Internal(req.id, codec.conversionError(p["arguments"]))
      else
        var args := if "arguments" in p && p["arguments"].JObject? then p["arguments"].fields else map[];
        [Respond(req.id, ResultBody(ToolCallPayload([ContentItem("text", h.call(name, args))])))]
  }

  // --------------------------------------------------------------- requests

  /** Handles a bound request. */
  function Handle(h: ToolHandler, codec: Codec, req: Request): (out: seq<Outgoing>)
    ensures |out| <= 1
    ensures forall k :: 0 <= k < |out| ==>
              out[k].Reply? && out[k].response.jsonrpc == JsonRpcVersion && out[k].response.id == req.id
    ensures req.methodName == "initialize" ==> out == [Respond(req.id, ResultBody(InitializePayload))]
    ensures req.methodName == "ping" ==> out == [Respond(req.id, ResultBody(EmptyPayload))]
  {
    if req.methodName == "initialize" then [Respond(req.id, ResultBody(InitializePayload))]
    else if req.methodName == "notifications/initialized" then []
    else if req.methodName == "tools/list" then
      match ListTools(h.definitions)
      case Ok(tools) => [Respond(req.id, ResultBody(ToolsListPayload(tools)))]
      case Throw(m) => Internal(req.id, m)
    else if req.methodName == "tools/call" then ToolCallReply(h, codec, req)
    else if req.methodName == "ping" then [Respond(req.id, ResultBody(EmptyPayload))]
    else if req.id.None? then []
    else [Fail(req.id, MethodNotFoundCode, "Unknown method: " + req.methodName)]
  }

  /** Handles one line of input. */
  function Step(h: ToolHandler, codec: Codec, line: Option<string>): (out: seq<Outgoing>)
    ensures |out| <= 1
    ensures forall k :: 0 <= k < |out| ==> out[k].Reply?
  {
    if line.None? || line.value == "" then []
    else
      match ReadDocument(codec, line.value)
      case None => [ParseErrorReply()]
      case Some(doc) =>
        match Bind(doc)
        case Malformed => [ParseErrorReply()]
        case NullRequest => []
        case Parsed(req) => Handle(h, codec, req)
  }

  /** The responses to a sequence of lines, in order. */
  function Transcript(h: ToolHandler, codec: Codec, lines: seq<Option<string>>): (out: seq<Outgoing>)
    ensures |out| <= |lines|
    ensures forall k :: 0 <= k < |out| ==> out[k].Reply?
    decreases |lines|
  {
    if |lines| == 0 then []
    else Transcript(h, codec, lines[..|lines| - 1]) + Step(h, codec, lines[|lines| - 1])
  }

  /** Everything the server writes for a sequence of input lines. */
  function Serve(h: ToolHandler, codec: Codec, lines: seq<Option<string>>): seq<Outgoing> {
    [Announcement] + Transcript(h, codec, lines)
  }

  /** The transcript of one more line is the transcript so far followed by
      that line's responses. */
  lemma TranscriptSnoc(h: ToolHandler, codec: Codec, lines: seq<Option<string>>, i: nat)
    requires i < |lines|
    ensures Transcript(h, codec, lines[..i + 1]) == Transcript(h, codec, lines[..i]) + Step(h, codec, lines[i])
  {
    assert lines[..i + 1][..i] == lines[..i];
  }

  /** The read loop: announce, then answer each line as it arrives. */
  method Run(h: ToolHandler, codec: Codec, lines: seq<Option<string>>) returns (out: seq<Outgoing>)
    ensures out == Serve(h, codec, lines)
  {
    out := [Announcement];
    var i := 0;
    while i < |lines|
      invariant 0 <= i <= |lines|
      invariant out == [Announcement] + Transcript(h, codec, lines[..i])
    {
      TranscriptSnoc(h, codec, lines, i);
      out := out + Step(h, codec, lines[i]);
      i := i + 1;
    }
    assert lines[..|lines|] == lines;
  }

  /** Handling lines one batch after another is handling them all at once:
      a step depends on its own line only. */
  lemma {:induction false} TranscriptAppend(h: ToolHandler, codec: Codec, a: seq<Option<string>>, b: seq<Option<string>>)
    ensures Transcript(h, codec, a + b) == Transcript(h, codec, a) + Transcript(h, codec, b)
    decreases |b|
  {
    if |b| == 0 {
      assert a + b == a;
    } else {
      var b' := b[..|b| - 1];
      assert (a + b)[..|a + b| - 1] == a + b';
      assert (a + b)[|a + b| - 1] == b[|b| - 1];
      TranscriptAppend(h, codec, a, b');
    }
  }

  /** The server answers the first line it reads after announcing itself;
      the announcement comes first and nothing else is one. */
  lemma ServeStartsWithAnnouncement(h: ToolHandler, codec: Codec, lines: seq<Option<string>>)
    ensures Serve(h, codec, lines)[0] == Announcement
    ensures forall k :: 1 <= k < |Serve(h, codec, lines)| ==> Serve(h, codec, lines)[k].Reply?
    ensures |Serve(h, codec, lines)| <= |lines| + 1
  {
    var t := Transcript(h, codec, lines);
    assert forall k :: 1 <= k < |Serve(h, codec, lines)| ==> Serve(h, codec, lines)[k] == t[k - 1];
  }

  /** A request with an id gets exactly one response, unless it is the
      initialized notification. */
  lemma RequestWithIdAnswered(h: ToolHandler, codec: Codec, req: Request)
    requires req.id.Some? && req.methodName != "notifications/initialized"
    ensures |Handle(h, codec, req)| == 1
  {
  }

  /** initialize is answered, even without an id, with the protocol version,
      the server's name and version, and the tools capability. */
  lemma InitializeAnswered(h: ToolHandler, codec: Codec, req: Request)
    requires req.methodName == "initialize"
    ensures Handle(h, codec, req) == [Respond(req.id, ResultBody(InitializePayload))]
    ensures var w := Wire(Handle(h, codec, req)[0]).fields;
            && "result" in w && "error" !in w
            && w["result"] == JObject(map[
                 "protocolVersion" := JString(ProtocolVersion),
                 "serverInfo" := JObject(map["name" := JString(ServerName), "version" := JString(ServerVersion)]),
                 "capabilities" := JObject(map["tools" := JObject(map[])])])
  {
  }

  /** ping is answered, even without an id, with an empty result object. */
  lemma PingAnswered(h: ToolHandler, codec: Codec, req: Request)
    requires req.methodName == "ping"
    ensures Handle(h, codec, req) == [Respond(req.id, ResultBody(EmptyPayload))]
    ensures var w := Wire(Handle(h, codec, req)[0]).fields;
            "result" in w && "error" !in w && w["result"] == JObject(map[])
  {
  }

  /** The initialized notification never gets a response, with or without an id. */
  lemma InitializedNeverAnswered(h: ToolHandler, codec: Codec, req: Request)
    requires req.methodName == "notifications/initialized"
    ensures Handle(h, codec, req) == []
  {
  }

  /** A notification for a method the server does not know is ignored. */
  lemma UnknownNotificationIgnored(h: ToolHandler, codec: Codec, req: Request)
    requires req.id.None? && req.methodName !in Methods
    ensures Handle(h, codec, req) == []
  {
  }

  /** `method_not_found` is sent exactly for requests with an id whose method
      the server does not know. */
  lemma MethodNotFoundExactly(h: ToolHandler, codec: Codec, req: Request)
    ensures (exists k :: 0 <= k < |Handle(h, codec, req)| && Handle(h, codec, req)[k].response.body.ErrorBody?
               && Handle(h, codec, req)[k].response.body.error.code == MethodNotFoundCode)
            <==> req.id.Some? && req.methodName !in Methods
    ensures req.id.Some? && req.methodName !in Methods ==>
              Handle(h, codec, req) == [Fail(req.id, MethodNotFoundCode, "Unknown method: " + req.methodName)]
  {
    var out := Handle(h, codec, req);
    if req.id.Some? && req.methodName !in Methods {
      assert out[0].response.body.error.code == MethodNotFoundCode;
    } else if req.methodName == "tools/call" {
      var o := ToolCallReply(h, codec, req);
      assert forall k :: 0 <= k < |o| && o[k].response.body.ErrorBody? ==>
               o[k].response.body.error.code in {InvalidParamsCode, InternalErrorCode};
    }
  }

  /** tools/list answers with the handler's catalog, listed, whether or not
      the request has an id. */
  lemma ToolsListAnswered(h: ToolHandler, codec: Codec, req: Request)
    requires req.methodName == "tools/list"
    requires ListTools(h.definitions).Ok?
    ensures Handle(h, codec, req) == [Respond(req.id, ResultBody(ToolsListPayload(ListTools(h.definitions).value)))]
  {
  }

  /** A tool call without a `name` is answered with `invalid_params`, even
      when it has no id. */
  lemma MissingNameIsInvalidParams(h: ToolHandler, codec: Codec, req: Request)
    requires req.methodName == "tools/call"
    requires req.params.None? || "name" !in req.params.value
    ensures Handle(h, codec, req) == [Fail(req.id, InvalidParamsCode, MissingNameMessage)]
  {
  }

  /** A tool call hands the tool handler the name as text and the argument
      object as the argument map, and answers with one text content item
      holding what the handler returned. */
  lemma ToolCallPassesArguments(h: ToolHandler, codec: Codec, req: Request, name: string, args: map<string, Json>)
    requires req.methodName == "tools/call"
    requires req.params.Some? && "name" in req.params.value && req.params.value["name"] == JString(name)
    requires "arguments" in req.params.value && req.params.value["arguments"] == JObject(args)
    ensures Handle(h, codec, req) == [Respond(req.id, ResultBody(ToolCallPayload([ContentItem("text", h.call(name, args))])))]
  {
  }

  /** A tool call whose arguments are not an object fails inside the engine:
      `internal_error` for a request, silence for a notification. */
  lemma BadArgumentsAreInternalError(h: ToolHandler, codec: Codec, req: Request)
    requires req.methodName == "tools/call"
    requires req.params.Some? && "name" in req.params.value
    requires "arguments" in req.params.value && !ObjectOrNull(req.params.value["arguments"])
    ensures Handle(h, codec, req) == Internal(req.id, codec.conversionError(req.params.value["arguments"]))
  {
  }

  /** A non-empty line that is not a JSON request, white space alone
      included, is answered with a parse error that carries no id. */
  lemma BadLineIsParseError(h: ToolHandler, codec: Codec, line: string)
    requires line != ""
    requires ReadDocument(codec, line).None? || Bind(ReadDocument(codec, line).value).Malformed?
    ensures Step(h, codec, Some(line)) == [ParseErrorReply()]
    ensures "id" !in Wire(ParseErrorReply()).fields
  {
  }

  /** Empty lines, and end of input, produce nothing. */
  lemma EmptyLineIgnored(h: ToolHandler, codec: Codec)
    ensures Step(h, codec, None) == [] && Step(h, codec, Some("")) == []
  {
  }

  /** A line holding the document `null` binds to no request and so
      produces nothing, not even a parse error. */
  lemma NullLineIgnored(h: ToolHandler, codec: Codec, line: string)
    requires line != ""
    requires ReadDocument(codec, line) == Some(JNull)
    ensures Step(h, codec, Some(line)) == []
  {
  }

  /** No catalog tool declares a parameter key twice. */
  lemma CatalogKeysDistinct(t: Tool)
    ensures FirstRepeat(Keys(Parameters(t))).None?
  {
    OneRequiredParameterFirst(t);
  }

  /** Each catalog tool lists its one required parameter as the required list. */
  lemma CatalogRequiredKeys(t: Tool)
    ensures RequiredKeysOf(Parameters(t)) == [RequiredKey(t)]
  {
    OneRequiredParameterFirst(t);
    var ps := Parameters(t);
    assert ps[0].0 == RequiredKey(t);
    if |ps| == 2 {
      assert ps[1..][1..] == [];
    }
  }

  /** Each catalog tool is listed under its name with its one required
      parameter as the required list. */
  lemma CatalogToolListed(t: Tool)
    ensures FirstRepeat(Keys(Definition(t).parameters)).None?
    ensures ToMcpTool(Definition(t)).name == Name(t)
    ensures ToMcpTool(Definition(t)).inputSchema.required == [RequiredKey(t)]
  {
    CatalogKeysDistinct(t);
    CatalogRequiredKeys(t);
  }

  /** tools/list on the catalog always succeeds and lists the eleven tools in
      catalog order. */
  lemma CatalogListed()
    ensures ListTools(Definitions()).Ok?
    ensures |ListTools(Definitions()).value| == |Order()|
    ensures forall k :: 0 <= k < |Order()| ==> ListTools(Definitions()).value[k] == ToMcpTool(Definition(Order()[k]))
  {
    DefinitionsFollowOrder();
    ToolsListed(Definitions(), Order());
  }

  /** Listing the definitions of some tools lists each under its name with
      its required key. */
  lemma ToolsListed(defs: seq<ToolDefinition>, tools: seq<Tool>)
    requires |defs| == |tools|
    requires forall k :: 0 <= k < |tools| ==> defs[k] == Definition(tools[k])
    ensures ListTools(defs).Ok?
    ensures |ListTools(defs).value| == |tools|
    ensures forall k :: 0 <= k < |tools| ==>
              && ListTools(defs).value[k].name == Name(tools[k])
              && ListTools(defs).value[k].inputSchema.required == [RequiredKey(tools[k])]
  {
    forall k | 0 <= k < |tools|
      ensures FirstRepeat(Keys(defs[k].parameters)).None?
      ensures ToMcpTool(defs[k]).name == Name(tools[k])
      ensures ToMcpTool(defs[k]).inputSchema.required == [RequiredKey(tools[k])]
    {
      CatalogToolListed(tools[k]);
    }
  }

  // --------------------------------------------------------------- on the wire

  function ServerInfoJson(): Json {
    JObject(map[
      "protocolVersion" := JString(ProtocolVersion),
      "serverInfo" := JObject(map["name" := JString(ServerName), "version" := JString(ServerVersion)]),
      "capabilities" := JObject(map["tools" := JObject(map[])])])
  }

  function PropertiesJson(ps: seq<(string, ToolProperty)>): (j: map<string, Json>)
    ensures j.Keys == set k | 0 <= k < |ps| :: ps[k].0
    decreases |ps|
  {
    if |ps| == 0 then map[]
    else
      var init := ps[..|ps| - 1];
      var last := ps[|ps| - 1];
      assert forall k :: 0 <= k < |init| ==> init[k] == ps[k];
      PropertiesJson(init)[last.0 := JObject(map[
        "type" := JString(last.1.typeName),
        "description" := JString(last.1.description)])]
  }

  function ToolJson(t: McpTool): Json {
    JObject(map[
      "name" := JString(t.name),
      "description" := JString(t.description),
      "inputSchema" := JObject(map[
        "type" := JString(t.inputSchema.schemaType),
        "properties" := JObject(PropertiesJson(t.inputSchema.properties)),
        "required" := JArray(seq(|t.inputSchema.required|, k requires 0 <= k < |t.inputSchema.required| =>
                                   JString(t.inputSchema.required[k])))])])
  }

  function PayloadJson(p: Payload): Json {
    match p
    case InitializePayload => ServerInfoJson()
    case ToolsListPayload(tools) =>
      JObject(map["tools" := JArray(seq(|tools|, k requires 0 <= k < |tools| => ToolJson(tools[k])))])
    case ToolCallPayload(content) =>
      JObject(map["content" := JArray(seq(|content|, k requires 0 <= k < |content| =>
                                            JObject(map["type" := JString(content[k].kind),
                                                        "text" := JString(content[k].text)])))])
    case EmptyPayload => JObject(map[])
  }

  /** The JSON object written for an outgoing message; members holding null
      are left out. */
  function Wire(o: Outgoing): Json {
    match o
    case Announcement => ServerInfoJson()
    case Reply(r) =>
      JObject(
        map["jsonrpc" := JString(r.jsonrpc)]
        + (if r.id.Some? then map["id" := r.id.value] else map[])
        + match r.body
          case ResultBody(p) => map["result" := PayloadJson(p)]
          case ErrorBody(e) => map["error" := JObject(map["code" := JString(e.code), "message" := JString(e.message)])])
  }

  /** On the wire a response always names its protocol version, carries an
      `id` exactly when the request had one, and carries exactly one of
      `result` and `error`; the announcement has neither protocol version nor id. */
  lemma WireShape(o: Outgoing)
    ensures Wire(o).JObject?
    ensures o.Announcement? ==> "jsonrpc" !in Wire(o).fields && "id" !in Wire(o).fields
    ensures o.Reply? ==> "jsonrpc" in Wire(o).fields && Wire(o).fields["jsonrpc"] == JString(o.response.jsonrpc)
    ensures o.Reply? ==> ("id" in Wire(o).fields <==> o.response.id.Some?)
    ensures o.Reply? && o.response.id.Some? ==> Wire(o).fields["id"] == o.response.id.value
    ensures o.Reply? ==> ("result" in Wire(o).fields <==> "error" !in Wire(o).fields)
    ensures o.Reply? ==> ("error" in Wire(o).fields <==> o.response.body.ErrorBody?)
  {
  }
}
