/** The tool dispatcher: it lowers the requested tool name, reads the tool's
    arguments out of the argument map, runs the matching server operation and
    turns whatever happens into a text for the client. It never fails: a bad
    argument becomes an error object, an unknown name another. */
module Dispatch {
  import opened Base
  import opened Json
  import opened IntText
  import Models
  import Client
  import Server
  import opened Catalog

  /** The tool arguments: member names to values, a JSON `null` kept as `JNull`. */
  type Arguments = map<string, Json>

  /** The default of the optional `top_count` argument. */
  const DefaultTopCount: int := 10

  /** The default of the optional `format` argument. */
  const DefaultFormat: string := "markdown"

  /** Why an accessor rejected an argument, one case per exception it raises:
      `ArgumentException` for a missing or null required value,
      `InvalidOperationException` for a string asked of another kind of value,
      `FormatException` for a number that is not a 32-bit integer. */
  datatype Rejection =
    | Missing(key: string)
    | NotString(value: Json)
    | NotInt32

  /** The exception's message, as .NET words it. */
  function Message(why: Rejection): string {
    match why
    case Missing(key) => "Parameter '" + key + "' is required"
    case NotString(value) =>
      "The requested operation requires an element of type 'String', but the target element has type '"
        + KindName(value) + "'."
    case NotInt32 => "One of the identified items was in an invalid format."
  }

  /** An accessor's outcome: the value read, or why it was rejected. */
  datatype Read<+T> = Value(value: T) | Rejected(why: Rejection) {
    predicate IsFailure() {
      Rejected?
    }

    function PropagateFailure<U>(): Read<U>
      requires Rejected?
    {
      Rejected(why)
    }

    function Extract(): T
      requires Value?
    {
      value
    }
  }

  /** A value the string accessors reject: present, neither null nor a string. */
  predicate NotAString(args: Arguments, key: string) {
    key in args && !args[key].JNull? && !args[key].JString?
  }

  /** A value the integer accessor rejects: a number that is not an integer
      literal in the 32-bit range. */
  predicate NotAnInt32(args: Arguments, key: string) {
    key in args && args[key].JNumber? && !(args[key].n.IntLiteral? && InInt32(args[key].n.i))
  }

  /** A non-empty string supplied for `key`. */
  predicate Supplied(args: Arguments, key: string) {
    key in args && args[key].JString? && args[key].s != ""
  }

  /** The required string argument `key`. */
  function RequiredString(args: Arguments, key: string): (r: Read<string>)
    ensures r.Value? <==> key in args && args[key].JString?
    ensures r.Value? ==> r.value == args[key].s
    ensures r == Rejected(Missing(key)) <==> key !in args || args[key].JNull?
    ensures NotAString(args, key) <==> key in args && r == Rejected(NotString(args[key]))
  {
    if key !in args then Rejected(Missing(key))
    else
      match args[key]
      case JNull => Rejected(Missing(key))
      case JString(s) => Value(s)
      case _ => Rejected(NotString(args[key]))
  }

  /** The optional string argument `key`, with `default` standing in for a
      missing, null or empty value. */
  function StringOr(args: Arguments, key: string, default: string): (r: Read<string>)
    ensures r.Rejected? <==> NotAString(args, key)
    ensures r.Rejected? ==> r.why == NotString(args[key])
    ensures r.Value? && Supplied(args, key) ==> r.value == args[key].s
    ensures r.Value? && !Supplied(args, key) ==> r.value == default
  {
    if key !in args then Value(default)
    else
      match args[key]
      case JNull => Value(default)
      case JString(s) => if s == "" then Value(default) else Value(s)
      case _ => Rejected(NotString(args[key]))
  }

  /** The optional integer argument `key`: a number must be a 32-bit integer
      literal, a string is parsed, anything else counts as absent. */
  function IntParameter(args: Arguments, key: string): (r: Read<Option<int>>)
    ensures r.Rejected? <==> NotAnInt32(args, key)
    ensures r.Rejected? ==> r.why == NotInt32
    ensures r.Value? && r.value.Some? ==> InInt32(r.value.value)
    ensures r.Value? && r.value.Some? ==> key in args && (args[key].JNumber? || args[key].JString?)
    ensures key !in args ==> r == Value(None)
    ensures key in args && args[key].JNumber? && args[key].n.IntLiteral? && InInt32(args[key].n.i) ==>
              r == Value(Some(args[key].n.i))
    ensures key in args && args[key].JString? ==> r == Value(TryParseInt32(args[key].s))
    ensures key in args && !args[key].JNumber? && !args[key].JString? ==> r == Value(None)
  {
    if key !in args then Value(None)
    else
      match args[key]
      case JNumber(n) =>
        if n.IntLiteral? && InInt32(n.i) then Value(Some(n.i)) else Rejected(NotInt32)
      case JString(s) => Value(TryParseInt32(s))
      case _ => Value(None)
  }

  /** A 32-bit integer reaches the dispatcher the same whether the client
      sends it as a number or as its decimal text. */
  lemma IntParameterReadsBothForms(key: string, i: int)
    requires InInt32(i)
    ensures IntParameter(map[key := JNumber(IntLiteral(i))], key) == Value(Some(i))
    ensures IntParameter(map[key := JString(FormatInt32(i))], key) == Value(Some(i))
  {
    ParseFormatRoundTrip(i);
  }

  /** A tool request with its arguments read and typed. */
  datatype ToolCall =
    | BlogStatisticsCall(username: string)
    | ArticleDetailsCall(articleId: string)
    | UserArticlesCall(username: string, limit: Option<int>)
    | SearchArticlesCall(query: string, limit: Option<int>)
    | SearchTagsCall(query: string)
    | TopArticlesByClapsCall(username: string, topCount: int)
    | EngagementMetricsCall(username: string)
    | PublicationInfoCall(publicationId: string)
    | ArticleContentCall(articleId: string, format: string)
    | UserInfoByIdCall(userId: string)
    | PublicationArticlesCall(slugOrId: string, limit: Option<int>)

  /** The tool a call is for. */
  function CallTool(call: ToolCall): Tool {
    match call
    case BlogStatisticsCall(_) => BlogStatistics
    case ArticleDetailsCall(_) => ArticleDetails
    case UserArticlesCall(_, _) => UserArticles
    case SearchArticlesCall(_, _) => SearchArticles
    case SearchTagsCall(_) => SearchTags
    case TopArticlesByClapsCall(_, _) => TopArticlesByClaps
    case EngagementMetricsCall(_) => EngagementMetrics
    case PublicationInfoCall(_) => PublicationInfo
    case ArticleContentCall(_, _) => ArticleContent
    case UserInfoByIdCall(_) => UserInfoById
    case PublicationArticlesCall(_, _) => PublicationArticles
  }

  /** The value a call carries for its tool's required parameter. */
  function RequiredArgument(call: ToolCall): string {
    match call
    case BlogStatisticsCall(u) => u
    case ArticleDetailsCall(a) => a
    case UserArticlesCall(u, _) => u
    case SearchArticlesCall(q, _) => q
    case SearchTagsCall(q) => q
    case TopArticlesByClapsCall(u, _) => u
    case EngagementMetricsCall(u) => u
    case PublicationInfoCall(p) => p
    case ArticleContentCall(a, _) => a
    case UserInfoByIdCall(u) => u
    case PublicationArticlesCall(p, _) => p
  }

  /** The optional argument of tool `t` holds a value its accessor rejects;
      which accessor applies follows the type the catalog declares. */
  predicate OptionalRejected(t: Tool, args: Arguments) {
    match OptionalKey(t)
    case None => false
    case Some(key) => if OptionalType(t) == "integer" then NotAnInt32(args, key) else NotAString(args, key)
  }

  /** The first of `tools` named `lname`, if any. */
  function FindNamed(tools: seq<Tool>, lname: string): (r: Option<Tool>)
    ensures r.Some? ==> r.value in tools && Name(r.value) == lname
    ensures r.None? <==> forall k :: 0 <= k < |tools| ==> Name(tools[k]) != lname
    decreases |tools|
  {
    if |tools| == 0 then None
    else if Name(tools[0]) == lname then Some(tools[0])
    else
      var r := FindNamed(tools[1..], lname);
      assert forall k :: 1 <= k < |tools| ==> tools[k] == tools[1..][k - 1];
      r
  }

  /** The catalog tool named `lname` (already lowered), if there is one. */
  function ToolNamed(lname: string): Option<Tool> {
    FindNamed(Order(), lname)
  }

  /** `ToolNamed` finds a tool exactly when the catalog has one of that name. */
  lemma ToolNamedFinds(lname: string)
    ensures ToolNamed(lname).Some? ==> Name(ToolNamed(lname).value) == lname
    ensures ToolNamed(lname).None? <==> forall t: Tool :: Name(t) != lname
  {
    if ToolNamed(lname).None? {
      forall t: Tool
        ensures Name(t) != lname
      {
        OrderComplete(t);
      }
    }
  }

  /** The tool a catalog name leads to is the tool of that name. */
  lemma ToolNamedName(t: Tool)
    ensures ToolNamed(Name(t)) == Some(t)
  {
    ToolNamedFinds(Name(t));
    NameInjective(t, ToolNamed(Name(t)).value);
  }

  /** Reads the arguments of tool `t`: the required one first, then the
      optional one, stopping at the first that is rejected. */
  function ParseCall(t: Tool, args: Arguments): (r: Read<ToolCall>)
    ensures r.Value? ==> CallTool(r.value) == t
    ensures r.Value? ==> RequiredKey(t) in args && args[RequiredKey(t)].JString?
    ensures r.Value? ==> RequiredArgument(r.value) == args[RequiredKey(t)].s
    ensures r.Value? <==> RequiredString(args, RequiredKey(t)).Value? && !OptionalRejected(t, args)
    ensures RequiredString(args, RequiredKey(t)).Rejected? ==> r == Rejected(RequiredString(args, RequiredKey(t)).why)
    ensures RequiredString(args, RequiredKey(t)).Value? && OptionalRejected(t, args) ==>
              r == Rejected(if OptionalType(t) == "integer" then NotInt32 else NotString(args[OptionalKey(t).value]))
    ensures r.Value? && (r.value.UserArticlesCall? || r.value.SearchArticlesCall? || r.value.PublicationArticlesCall?) ==>
              IntParameter(args, "limit") == Value(r.value.limit)
    ensures r.Value? && r.value.TopArticlesByClapsCall? ==>
              r.value.topCount == IntParameter(args, "top_count").value.GetOr(DefaultTopCount)
    ensures r.Value? && r.value.ArticleContentCall? ==>
              StringOr(args, "format", DefaultFormat) == Value(r.value.format)
  {
    match t
    case BlogStatistics =>
      var u :- RequiredString(args, "username");
      Value(BlogStatisticsCall(u))
    case ArticleDetails =>
      var a :- RequiredString(args, "article_id");
      Value(ArticleDetailsCall(a))
    case UserArticles =>
      var u :- RequiredString(args, "username");
      var limit :- IntParameter(args, "limit");
      Value(UserArticlesCall(u, limit))
    case SearchArticles =>
      var q :- RequiredString(args, "query");
      var limit :- IntParameter(args, "limit");
      Value(SearchArticlesCall(q, limit))
    case SearchTags =>
      var q :- RequiredString(args, "query");
      Value(SearchTagsCall(q))
    case TopArticlesByClaps =>
      var u :- RequiredString(args, "username");
      var topCount :- IntParameter(args, "top_count");
      Value(TopArticlesByClapsCall(u, topCount.GetOr(DefaultTopCount)))
    case EngagementMetrics =>
      var u :- RequiredString(args, "username");
      Value(EngagementMetricsCall(u))
    case PublicationInfo =>
      var p :- RequiredString(args, "publication_id");
      Value(PublicationInfoCall(p))
    case ArticleContent =>
      var a :- RequiredString(args, "article_id");
      var format :- StringOr(args, "format", DefaultFormat);
      Value(ArticleContentCall(a, format))
    case UserInfoById =>
      var u :- RequiredString(args, "user_id");
      Value(UserInfoByIdCall(u))
    case PublicationArticles =>
      var p :- RequiredString(args, "publication_slug_or_id");
      var limit :- IntParameter(args, "limit");
      Value(PublicationArticlesCall(p, limit))
  }

  /** What a server operation returned, tagged with the operation. */
  datatype OpResult =
    | BlogStatisticsResult(blogStatistics: Models.McpResult<Models.BlogStatistics>)
    | ArticleDetailsResult(articleDetails: Models.McpResult<Models.ArticleDetails>)
    | UserArticlesResult(userArticles: Models.McpResult<Models.UserArticles>)
    | SearchArticlesResult(searchArticles: Models.McpResult<Models.SearchArticles>)
    | SearchTagsResult(tagSearch: Models.McpResult<Models.TagSearch>)
    | TopArticlesByClapsResult(topArticles: Models.McpResult<Models.TopArticles>)
    | EngagementMetricsResult(engagement: Models.McpResult<Models.EngagementMetrics>)
    | PublicationInfoResult(publicationInfo: Models.McpResult<Models.PublicationInfo>)
    | ArticleContentResult(articleContent: Models.McpResult<Models.ArticleContent>)
    | UserInfoByIdResult(userInfo: Models.McpResult<Models.UserInfo>)
    | PublicationArticlesResult(publicationArticles: Models.McpResult<Models.PublicationArticles>)

  /** Runs the server operation a call asks for. */
  function Execute(api: Client.Api, call: ToolCall): OpResult
  {
    match call
    case BlogStatisticsCall(u) => BlogStatisticsResult(Server.GetBlogStatistics(api, u))
    case ArticleDetailsCall(a) => ArticleDetailsResult(Server.GetArticleDetails(api, a))
    case UserArticlesCall(u, limit) => UserArticlesResult(Server.GetUserArticles(api, u, limit))
    case SearchArticlesCall(q, limit) => SearchArticlesResult(Server.GetSearchArticles(api, q, limit))
    case SearchTagsCall(q) => SearchTagsResult(Server.SearchTags(api, q))
    case TopArticlesByClapsCall(u, n) => TopArticlesByClapsResult(Server.GetTopArticlesByClaps(api, u, n))
    case EngagementMetricsCall(u) => EngagementMetricsResult(Server.GetEngagementMetrics(api, u))
    case PublicationInfoCall(p) => PublicationInfoResult(Server.GetPublicationInfo(api, p))
    case ArticleContentCall(a, f) => ArticleContentResult(Server.GetArticleContent(api, a, f))
    case UserInfoByIdCall(u) => UserInfoByIdResult(Server.GetUserInfoById(api, u))
    case PublicationArticlesCall(p, limit) => PublicationArticlesResult(Server.GetPublicationArticles(api, p, limit))
  }

  /** How a tool call ended: with an operation's result, at an unknown name,
      or at an argument the accessors rejected (why, and the name as requested). */
  datatype ToolOutput =
    | Completed(call: ToolCall, result: OpResult)
    | UnknownTool(name: string)
    | ToolFailed(why: Rejection, toolName: string)

  /** Dispatches a tool call by its lowered name. */
  function HandleToolCall(api: Client.Api, toolName: string, args: Arguments): (out: ToolOutput)
    ensures out.UnknownTool? <==> ToolNamed(Lower(toolName)).None?
    ensures out.UnknownTool? ==> out.name == toolName
    ensures out.Completed? ==> ToolNamed(Lower(toolName)) == Some(CallTool(out.call))
    ensures out.Completed? ==> ParseCall(CallTool(out.call), args) == Value(out.call)
    ensures out.Completed? ==> out.result == Execute(api, out.call)
    ensures out.ToolFailed? ==> out.toolName == toolName
    ensures ToolNamed(Lower(toolName)).Some? ==>
              (out.ToolFailed? <==> ParseCall(ToolNamed(Lower(toolName)).value, args).Rejected?)
    ensures out.ToolFailed? ==>
              ToolNamed(Lower(toolName)).Some? && ParseCall(ToolNamed(Lower(toolName)).value, args) == Rejected(out.why)
  {
    match ToolNamed(Lower(toolName))
    case None => UnknownTool(toolName)
    case Some(t) =>
      match ParseCall(t, args)
      case Rejected(why) => ToolFailed(why, toolName)
      case Value(call) => Completed(call, Execute(api, call))
  }

  /** A name is unknown exactly when no catalog tool bears it once lowered;
      a completed call ran the tool the lowered name names. */
  lemma UnknownExactlyOutsideCatalog(api: Client.Api, toolName: string, args: Arguments)
    ensures HandleToolCall(api, toolName, args).UnknownTool? <==> forall t: Tool :: Name(t) != Lower(toolName)
    ensures HandleToolCall(api, toolName, args).Completed? ==>
              Name(CallTool(HandleToolCall(api, toolName, args).call)) == Lower(toolName)
  {
    ToolNamedFinds(Lower(toolName));
  }

  /** Names that differ only in the case of ASCII letters reach the same tool
      with the same arguments, so they end the same way. */
  lemma {:induction false} DispatchIgnoresCase(api: Client.Api, a: string, b: string, args: Arguments)
    requires Lower(a) == Lower(b)
    ensures HandleToolCall(api, a, args).Completed? <==> HandleToolCall(api, b, args).Completed?
    ensures HandleToolCall(api, a, args).Completed? ==> HandleToolCall(api, a, args) == HandleToolCall(api, b, args)
    ensures HandleToolCall(api, a, args).ToolFailed? ==>
              HandleToolCall(api, b, args).ToolFailed?
              && HandleToolCall(api, a, args).why == HandleToolCall(api, b, args).why
  {
  }

  /** A request for a catalog tool, in any case, without its required
      parameter fails with the message naming that parameter. */
  lemma MissingRequiredArgument(api: Client.Api, t: Tool, toolName: string, args: Arguments)
    requires Lower(toolName) == Name(t)
    requires RequiredKey(t) !in args || args[RequiredKey(t)].JNull?
    ensures HandleToolCall(api, toolName, args) == ToolFailed(Missing(RequiredKey(t)), toolName)
  {
    ToolNamedName(t);
  }

  /** The required parameter alone, as a string, is enough for every tool. */
  lemma RequiredArgumentSuffices(t: Tool, value: string)
    ensures ParseCall(t, map[RequiredKey(t) := JString(value)]).Value?
    ensures RequiredArgument(ParseCall(t, map[RequiredKey(t) := JString(value)]).value) == value
  {
    var args := map[RequiredKey(t) := JString(value)];
    OptionalIsOptional(t);
    assert !OptionalRejected(t, args);
  }

  /** A request for a catalog tool, in any case, with its required parameter
      as a string completes: the matching operation runs on that value. */
  lemma RequiredArgumentCompletes(api: Client.Api, t: Tool, toolName: string, value: string)
    requires Lower(toolName) == Name(t)
    ensures HandleToolCall(api, toolName, map[RequiredKey(t) := JString(value)]).Completed?
    ensures CallTool(HandleToolCall(api, toolName, map[RequiredKey(t) := JString(value)]).call) == t
  {
    RequiredArgumentSuffices(t, value);
    ToolNamedName(t);
  }

  /** Without `top_count` the top-articles tool ranks ten articles; without
      `format` the content tool asks for markdown. */
  lemma OptionalDefaults(username: string, articleId: string)
    ensures ParseCall(TopArticlesByClaps, map["username" := JString(username)])
              == Value(TopArticlesByClapsCall(username, DefaultTopCount))
    ensures ParseCall(ArticleContent, map["article_id" := JString(articleId)])
              == Value(ArticleContentCall(articleId, DefaultFormat))
  {
  }

  /** What the tool handler writes: the serialized result record, or an
      error object. The writer and the exception's stack trace are supplied. */
  datatype ToolCodec = ToolCodec(
    renderResult: OpResult -> string,
    serialize: Json -> string,
    stackTrace: Json)

  /** The error object for an unsuccessful call. */
  function ErrorObject(out: ToolOutput, stackTrace: Json): (j: Json)
    requires !out.Completed?
    ensures j.JObject? && "error" in j.fields && j.fields["error"].JString?
    ensures out.UnknownTool? ==> j.fields.Keys == {"error"}
    ensures out.UnknownTool? ==> j.fields["error"] == JString("Unknown tool: " + out.name)
    ensures out.ToolFailed? ==> j.fields.Keys == {"error", "stackTrace", "toolName"}
    ensures out.ToolFailed? ==> j.fields["error"] == JString(Message(out.why))
    ensures out.ToolFailed? ==> j.fields["toolName"] == JString(out.toolName)
  {
    match out
    case UnknownTool(name) => JObject(map["error" := JString("Unknown tool: " + name)])
    case ToolFailed(why, name) =>
      JObject(map["error" := JString(Message(why)), "stackTrace" := stackTrace, "toolName" := JString(name)])
  }

  /** The text the tool handler returns for a call. */
  function ToolText(codec: ToolCodec, out: ToolOutput): string {
    match out
    case Completed(_, r) => codec.renderResult(r)
    case _ => codec.serialize(ErrorObject(out, codec.stackTrace))
  }
}
