/** The server as assembled: the protocol engine driven by the tool
    dispatcher, which lists the catalog and answers calls with the text of a
    server operation's result. */
module App {
  import opened Base
  import opened Json
  import opened Catalog
  import Dispatch
  import Protocol
  import Server
  import Client

  /** The tool handler the engine is built with: the catalog, and the
      dispatcher's text for a call. */
  function Handler(api: Client.Api, tc: Dispatch.ToolCodec): Protocol.ToolHandler {
    Protocol.ToolHandler(
      Definitions(),
      (name: string, args: map<string, Json>) => Dispatch.ToolText(tc, Dispatch.HandleToolCall(api, name, args)))
  }

  /** A tool call with an argument object: the params a client sends. */
  function CallParams(name: string, args: map<string, Json>): map<string, Json> {
    map["name" := JString(name), "arguments" := JObject(args)]
  }

  /** tools/list on the assembled server answers, even without an id, with
      the eleven catalog tools in catalog order. */
  lemma ListsTheCatalog(api: Client.Api, tc: Dispatch.ToolCodec, codec: Protocol.Codec, req: Protocol.Request)
    requires req.methodName == "tools/list"
    ensures Protocol.ListTools(Definitions()).Ok?
    ensures Protocol.Handle(Handler(api, tc), codec, req)
              == [Protocol.Respond(req.id, Protocol.ResultBody(Protocol.ToolsListPayload(Protocol.ListTools(Definitions()).value)))]
  {
    Protocol.CatalogListed();
    Protocol.ToolsListAnswered(Handler(api, tc), codec, req);
  }

  /** A tool call is always answered with a result, never a JSON-RPC error,
      whatever the dispatcher made of it: its one text item is the result
      record's rendering or the error object's serialization. */
  lemma ToolCallAlwaysAResult(api: Client.Api, tc: Dispatch.ToolCodec, codec: Protocol.Codec,
                              id: Option<Json>, name: string, args: map<string, Json>)
    ensures Protocol.Handle(Handler(api, tc), codec, Protocol.Request(id, "tools/call", Some(CallParams(name, args))))
              == [Protocol.Respond(id, Protocol.ResultBody(Protocol.ToolCallPayload(
                    [Protocol.ContentItem("text", Dispatch.ToolText(tc, Dispatch.HandleToolCall(api, name, args)))])))]
  {
    Protocol.ToolCallPassesArguments(Handler(api, tc), codec,
      Protocol.Request(id, "tools/call", Some(CallParams(name, args))), name, args);
  }

  /** A call for a name outside the catalog is answered with the serialized
      "Unknown tool" object as its result text. */
  lemma UnknownToolAnswered(api: Client.Api, tc: Dispatch.ToolCodec, codec: Protocol.Codec,
                            id: Option<Json>, name: string, args: map<string, Json>)
    requires forall t: Tool :: Name(t) != Lower(name)
    ensures Protocol.Handle(Handler(api, tc), codec, Protocol.Request(id, "tools/call", Some(CallParams(name, args))))
              == [Protocol.Respond(id, Protocol.ResultBody(Protocol.ToolCallPayload(
                    [Protocol.ContentItem("text", tc.serialize(JObject(map["error" := JString("Unknown tool: " + name)])))])))]
  {
    ToolCallAlwaysAResult(api, tc, codec, id, name, args);
    Dispatch.UnknownExactlyOutsideCatalog(api, name, args);
  }

  /** A tool call without its required argument is answered with the error
      object naming the missing parameter and echoing the tool name. */
  lemma MissingArgumentAnswered(api: Client.Api, tc: Dispatch.ToolCodec, codec: Protocol.Codec,
                                id: Option<Json>, t: Tool, name: string, args: map<string, Json>)
    requires Lower(name) == Name(t)
    requires RequiredKey(t) !in args
    ensures Protocol.Handle(Handler(api, tc), codec, Protocol.Request(id, "tools/call", Some(CallParams(name, args))))
              == [Protocol.Respond(id, Protocol.ResultBody(Protocol.ToolCallPayload(
                    [Protocol.ContentItem("text", tc.serialize(Dispatch.ErrorObject(
                      Dispatch.ToolFailed(Dispatch.Missing(RequiredKey(t)), name), tc.stackTrace)))])))]
  {
    ToolCallAlwaysAResult(api, tc, codec, id, name, args);
    Dispatch.MissingRequiredArgument(api, t, name, args);
  }

  /** The blog-statistics tool, asked for a user, answers with the rendering
      of the statistics the server computes for that user. */
  lemma BlogStatisticsAnswered(api: Client.Api, tc: Dispatch.ToolCodec, codec: Protocol.Codec,
                               id: Option<Json>, username: string)
    ensures Protocol.Handle(Handler(api, tc), codec,
              Protocol.Request(id, "tools/call", Some(CallParams("get_blog_statistics", map["username" := JString(username)]))))
            == [Protocol.Respond(id, Protocol.ResultBody(Protocol.ToolCallPayload(
                  [Protocol.ContentItem("text", tc.renderResult(
                    Dispatch.BlogStatisticsResult(Server.GetBlogStatistics(api, username))))])))]
  {
    var args := map["username" := JString(username)];
    ToolCallAlwaysAResult(api, tc, codec, id, "get_blog_statistics", args);
    NamesLowercase(BlogStatistics);
    Dispatch.ToolNamedName(BlogStatistics);
    assert Dispatch.ParseCall(BlogStatistics, args) == Dispatch.Value(Dispatch.BlogStatisticsCall(username));
  }

  /** A line holding a tool call request is answered as that request. */
  lemma LineAnsweredAsRequest(api: Client.Api, tc: Dispatch.ToolCodec, codec: Protocol.Codec,
                              line: string, req: Protocol.Request)
    requires line != ""
    requires req.id.Some? ==> !req.id.value.JNull?
    requires codec.parse(line) == Some(Protocol.RequestDocument(req))
    requires exists k :: 0 <= k < |line| && !Protocol.IsJsonWhite(line[k])
    ensures Protocol.Step(Handler(api, tc), codec, Some(line)) == Protocol.Handle(Handler(api, tc), codec, req)
  {
    Protocol.BindRequestDocument(req);
  }
}
