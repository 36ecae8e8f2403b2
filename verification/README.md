# medium-stats MCP server, modelled in Dafny

This project models the core of the `medium-stats` Model Context Protocol
server. The server is a console program. It reads one JSON-RPC 2.0 request
per line on standard input and writes responses to standard output. It
exposes eleven "tools" that wrap the Medium API client. The model has three
layers, following the three core classes:

- **The protocol engine** (`McpProtocolHandler`), in module `Protocol`.
  - It announces the server on startup.
  - Each input line is either skipped, answered with a parse error, or bound
    to a request and dispatched on its method: `initialize`,
    `notifications/initialized`, `tools/list`, `tools/call`, `ping`, or
    anything else.
  - The server keeps no session state. A line is therefore handled by the
    pure function `Step`, and a session (`Serve`) is the announcement
    followed by the concatenation of the steps. `Run` is the read loop,
    proved equal to `Serve`.
- **The tool dispatcher and catalog** (`McpToolHandler`), in modules
  `Catalog` and `Dispatch`.
  - The catalog holds the eleven tool definitions, with their names,
    descriptions and parameters, verbatim.
  - Dispatch lowers the requested name and reads the arguments with the
    three accessors: required string, string with default, and optional
    `int`.
  - It runs the matching server operation. Every outcome becomes a text: the
    serialized result record, or an error object for an unknown name or a
    rejected argument. The dispatcher never fails.
- **The server operations** (`McpServer`), in module `Server`.
  - Nine of the eleven operations are a body that may raise, wrapped by
    `Catch`, which turns an exception into `Success = false` with its
    message.
  - The top-articles and engagement operations instead pass on the failure
    of the article list they build on. Engagement also reports an overflow
    of its checked sums as its own failure.
  - Medium client calls are functions supplied in `Client.Api`.
  - Article lists keep only the details that could be fetched, and a limit
    cuts the ids with `Take`.
  - Top articles use a stable sort by claps.
  - Engagement metrics use checked `int` sums and truncating averages.
  - Content formats are normalised.

Module `App` assembles the engine with the dispatcher and proves end-to-end
facts: tools/list lists the catalog, and a tool call always comes back as a
result whose text is the dispatcher's.

Supporting modules:

- `Base`: `Option`, `Result` and ASCII lowering.
- `Json`: the JSON value type.
- `IntText`: `int.TryParse` and `Int32.ToString`.
- `Models` and `Client`: the result records, and the Medium client's records
  and calls.

Reading JSON text and writing it back are supplied as functions
(`Protocol.Codec`, `Dispatch.ToolCodec`). So are the Medium API calls
(`Client.Api`).

The engine departs from JSON-RPC 2.0 and from the usual Model Context
Protocol handshake in these ways, and the model follows the code:

- A line of only white space is answered with a parse error. It is not
  skipped: only the empty line and end of input are skipped
  (`McpProtocolHandler.cs:49`).
- A line holding the JSON document `null` produces nothing, not even a parse
  error (`McpProtocolHandler.cs:59-60`).
- `notifications/initialized` never gets a response, even when it carries an
  `id`.
- The server keeps no "initialized" state. Every method is answered before
  `initialize` too.
- The JSON-RPC error codes are the strings `parse_error`, `method_not_found`,
  `invalid_params` and `internal_error`, not the integers of JSON-RPC.
- A `tools/call` without `name` is answered with `invalid_params` even when
  it has no `id`. That is the only error a notification can receive, apart
  from the parse error.

## Model

| member | source | states |
|---|---|---|
| Base.Lower | MCP/McpToolHandler.cs:258 | lowering keeps the length, leaves no upper-case letter, and changes a character only by mapping an upper-case letter to its lower-case partner |
| Base.LowerIdempotent | MCP/McpToolHandler.cs:258 | lowering an already lowered name changes nothing |
| Json.KindName | MCP/McpToolHandler.cs:435 | the kind name reported in the `GetString` exception is "String" exactly for strings and "Null" exactly for null |
| IntText.TryParseInt32 | MCP/McpToolHandler.cs:500 | `int.TryParse` yields only 32-bit values, and only from text containing a digit |
| IntText.NatToDigits | MCP/McpToolHandler.cs:500 | the decimal digits of a number are non-empty, all digits, and denote that number |
| IntText.ParseFormatRoundTrip | MCP/McpToolHandler.cs:500 | every 32-bit integer written in decimal is read back as itself by `int.TryParse` |
| Catalog.NameInjective | MCP/McpToolHandler.cs:29-241 | no two catalog tools share a name |
| Catalog.NamesLowercase | MCP/McpToolHandler.cs:258-404 | every tool name is its own lowering, so each `case` label is reachable by the lowered request name |
| Catalog.OrderComplete | MCP/McpToolHandler.cs:29-241 | the catalog lists eleven tools, each tool once |
| Catalog.DefinitionsFollowOrder | MCP/McpToolHandler.cs:29-241 | the k-th definition handed out is that of the k-th tool in catalog order |
| Catalog.OptionalIsOptional | MCP/McpToolHandler.cs:79-85 | an optional parameter is never marked required and never reuses the required key |
| Catalog.OneRequiredParameterFirst | MCP/McpToolHandler.cs:29-241 | every tool declares exactly one required parameter, first, and no key twice |
| Dispatch.RequiredString | MCP/McpToolHandler.cs:427-446 | a string is returned exactly for a present string value; a missing or null value gives "Parameter '<key>' is required"; any other kind gives the `GetString` kind error |
| Dispatch.StringOr | MCP/McpToolHandler.cs:448-477 | the default stands in for a missing, null or empty value; a present non-empty string is returned; any other kind is rejected with the kind error |
| Dispatch.IntParameter | MCP/McpToolHandler.cs:479-508 | a number must be a 32-bit integer literal, and that integer is read, or the format error is raised; a string is read as `int.TryParse` of its text; a missing key or any other kind reads as absent |
| Dispatch.IntParameterReadsBothForms | MCP/McpToolHandler.cs:479-508 | a 32-bit integer is read the same whether sent as a number or as its decimal text |
| Dispatch.FindNamed | MCP/McpToolHandler.cs:258-404 | the name lookup finds a tool exactly when one in the list bears the name, and the tool it finds bears it |
| Dispatch.ToolNamedFinds | MCP/McpToolHandler.cs:258-407 | a lowered name reaches a tool exactly when some catalog tool bears it, otherwise the `default` branch |
| Dispatch.ToolNamedName | MCP/McpToolHandler.cs:258-404 | each tool's own name leads to that tool |
| Dispatch.ParseCall | MCP/McpToolHandler.cs:260-402 | the arguments read for a tool carry its required value; the read succeeds exactly when the required value is a string and the optional one is not rejected; a rejected argument rejects the call with that accessor's reason; `limit` is the integer accessor's value, `top_count` that value or 10, and `format` the defaulting string accessor's value |
| Dispatch.HandleToolCall | MCP/McpToolHandler.cs:243-425 | an unknown name is exactly one no catalog tool bears once lowered; for a known tool the call fails exactly when reading its arguments is rejected, with that rejection's reason, and otherwise runs the tool's operation on the arguments read; failures echo the requested name |
| Dispatch.UnknownExactlyOutsideCatalog | MCP/McpToolHandler.cs:404-407 | "Unknown tool" is answered exactly for names that match no catalog name after lowering |
| Dispatch.DispatchIgnoresCase | MCP/McpToolHandler.cs:258 | names differing only in ASCII case complete identically and fail for the same reason |
| Dispatch.MissingRequiredArgument | MCP/McpToolHandler.cs:427-446 | a catalog tool called without its required parameter fails naming that parameter and echoing the tool name |
| Dispatch.RequiredArgumentSuffices | MCP/McpToolHandler.cs:260-402 | the required parameter alone, as a string, is enough for every tool |
| Dispatch.RequiredArgumentCompletes | MCP/McpToolHandler.cs:258-402 | a call in any case with the required string completes on the named tool |
| Dispatch.OptionalDefaults | MCP/McpToolHandler.cs:327-366 | a missing `top_count` means 10 and a missing `format` means "markdown" |
| Dispatch.ErrorObject | MCP/McpToolHandler.cs:404-424 | an unknown tool yields an object holding only `error`; a failed call yields `error` with the exception message, `stackTrace` and `toolName` |
| Protocol.Internal | MCP/McpProtocolHandler.cs:168-179 | an exception while handling is reported exactly when the request has an id, as an `internal_error` carrying the exception's message and that id |
| Protocol.ReadDocument | MCP/McpProtocolHandler.cs:49-59 | a line of white space never reads as a document |
| Protocol.Bind | MCP/McpProtocolHandler.cs:59-75 | `null` yields no request and any other non-object is a parse error; an object is a parse error exactly when `jsonrpc` or `method` is neither string nor null or `params` is neither object nor null; otherwise it binds its id (absent or null means notification), its method (absent or null means the empty name) and its params object |
| Protocol.BindRequestDocument | MCP/McpProtocolHandler.cs:424-437 | binding the document of a request gives that request back |
| Protocol.RequiredKeysOf | MCP/McpProtocolHandler.cs:271 | the required list holds exactly the keys of the parameters marked required |
| Protocol.RequiredKeysOfAppend | MCP/McpProtocolHandler.cs:271 | the required keys of a concatenation are those of each part in turn, so declaration order is kept |
| Protocol.RequiredKeysOfOne | MCP/McpProtocolHandler.cs:271 | one parameter contributes its key, once, exactly when it is required |
| Protocol.FirstRepeat | MCP/McpProtocolHandler.cs:263-270 | the property dictionary is built exactly when no key repeats; the key reported is the first one that repeats an earlier one, where the dictionary's `Add` throws |
| Protocol.ToMcpTool | MCP/McpProtocolHandler.cs:256-274 | a listed tool keeps the definition's name and description, has schema type "object", lists each parameter's key, type and description in order, and lists the required keys as the required-key filter gives them |
| Protocol.ListTools | MCP/McpProtocolHandler.cs:256-274 | tools/list succeeds exactly when no definition repeats a key, and then lists every definition in order |
| Protocol.ToolCallReply | MCP/McpProtocolHandler.cs:293-357 | a tool call without `name` is answered with `invalid_params`; with `name`, the handler gets the name's text and the argument object, or the empty map when `arguments` is absent or null, and its text is the one content item; arguments of another kind give the conversion error as `internal_error` |
| Protocol.Handle | MCP/McpProtocolHandler.cs:114-181 | a request gets at most one response, every response carries version "2.0" and the request's id, and `initialize` and `ping` are answered with their payloads whether or not there is an id |
| Protocol.Step | MCP/McpProtocolHandler.cs:45-83 | a line gets at most one response |
| Protocol.Transcript | MCP/McpProtocolHandler.cs:45-83 | a sequence of lines gets at most one response per line, all of them responses |
| Protocol.Run | MCP/McpProtocolHandler.cs:32-90 | the read loop writes exactly the announcement followed by the responses to each line in turn |
| Protocol.TranscriptAppend | MCP/McpProtocolHandler.cs:45-83 | handling lines in two batches equals handling them at once, because a line's handling depends only on that line |
| Protocol.ServeStartsWithAnnouncement | MCP/McpProtocolHandler.cs:41-42 | the server info is written first and never again, and at most one response follows per line |
| Protocol.RequestWithIdAnswered | MCP/McpProtocolHandler.cs:114-181 | every request with an id gets exactly one response, except `notifications/initialized` |
| Protocol.InitializeAnswered | MCP/McpProtocolHandler.cs:129-131 | `initialize` is answered, even without an id, with a result holding protocol version "2024-11-05", server "medium-stats" version "1.0.0", and the tools capability |
| Protocol.PingAnswered | MCP/McpProtocolHandler.cs:359-374 | `ping` is answered, even without an id, with the empty result object |
| Protocol.InitializedNeverAnswered | MCP/McpProtocolHandler.cs:183-198 | `notifications/initialized` gets no response, with or without an id |
| Protocol.UnknownNotificationIgnored | MCP/McpProtocolHandler.cs:154-159 | a notification for an unknown method is ignored |
| Protocol.MethodNotFoundExactly | MCP/McpProtocolHandler.cs:123-166 | `method_not_found` is sent exactly for requests with an id whose method is not one of the five handled, with the message "Unknown method: " followed by the method |
| Protocol.ToolsListAnswered | MCP/McpProtocolHandler.cs:276-286 | tools/list answers with the handler's definitions, listed, whether or not there is an id |
| Protocol.MissingNameIsInvalidParams | MCP/McpProtocolHandler.cs:298-303 | a tool call without `name` gets `invalid_params`, even as a notification |
| Protocol.ToolCallPassesArguments | MCP/McpProtocolHandler.cs:305-350 | the tool handler receives the name and the argument object, and the answer is one text content item holding what it returned |
| Protocol.BadArgumentsAreInternalError | MCP/McpProtocolHandler.cs:308-312 | arguments that are not an object make the call fail with `internal_error` for a request and with silence for a notification |
| Protocol.BadLineIsParseError | MCP/McpProtocolHandler.cs:77-81 | a non-empty line that is not a request, white space included, gets a parse error without an id |
| Protocol.EmptyLineIgnored | MCP/McpProtocolHandler.cs:49-50 | an empty line and end of input produce nothing |
| Protocol.NullLineIgnored | MCP/McpProtocolHandler.cs:59-60 | a line holding the document `null` produces nothing, not even a parse error |
| Protocol.CatalogKeysDistinct | MCP/McpProtocolHandler.cs:263-270 | no catalog tool makes the property dictionary throw |
| Protocol.CatalogRequiredKeys | MCP/McpProtocolHandler.cs:271 | each catalog tool's required list is its one required key |
| Protocol.CatalogToolListed | MCP/McpProtocolHandler.cs:256-274 | each catalog tool is listed under its name with its one required key |
| Protocol.CatalogListed | MCP/McpProtocolHandler.cs:240-274 | tools/list on the catalog succeeds and lists the eleven tools in catalog order |
| Protocol.ToolsListed | MCP/McpProtocolHandler.cs:256-274 | listing the definitions of any tools lists each under its name with its required key |
| Protocol.PropertiesJson | MCP/McpProtocolHandler.cs:524-534 | the written properties object has exactly the parameter keys as members |
| Protocol.WireShape | MCP/McpProtocolHandler.cs:378-414 | a written response names its version, has an `id` exactly when the request had one, and has exactly one of `result` and `error`; the announcement has neither version nor id |
| Server.Catch | MCP/McpServer.cs:68-76 | an operation succeeds exactly when its body does not raise, and a failure carries the exception's message |
| Server.Take | MCP/McpServer.cs:140-142 | `Take(n)` is the prefix of length n, clamped to the list, and empty for n <= 0 |
| Server.GetBlogStatistics | MCP/McpServer.cs:37-77 | the statistics fail with the user lookup's message, or else with the article-id lookup's message; when both succeed they carry the requested username, the user's profile fields and the number of the user's article ids |
| Server.BlogStatisticsCountsUserArticles | MCP/McpServer.cs:37-189 | the statistics succeed exactly when the user's article list does, fail with the same message, and count as many articles as the list totals |
| Server.GetArticleDetails | MCP/McpServer.cs:82-120 | details succeed exactly when the article lookup does and fail with its message; they copy the id, title, subtitle, claps, responses, voters, address and date, and turn missing tags or topics into empty lists |
| Server.GetPublicationInfo | MCP/McpServer.cs:445-486 | publication info succeeds exactly when the lookup does and fails with its message; it copies the id, name, tagline, description, followers, social handles, address, slug, creator and editors, and the tag list, a missing one becoming empty |
| Server.ProfileUrl | MCP/McpServer.cs:595 | the profile address is the fixed prefix followed by the username |
| Server.GetUserInfoById | MCP/McpServer.cs:574-610 | user info succeeds exactly when the lookup does and fails with its message; it copies the returned id, username, full name, follower count, bio, image and Twitter handle, and builds the profile address from the returned username |
| Server.Fetched | MCP/McpServer.cs:147-164 | each listed article is the details of one of the ids, and there are no more articles than ids |
| Server.FetchedAppend | MCP/McpServer.cs:147-164 | fetching a concatenation fetches each part in turn |
| Server.FetchedAllSucceed | MCP/McpServer.cs:147-164 | when every fetch succeeds, the i-th article is the details of the i-th id |
| Server.CollectArticles | MCP/McpServer.cs:147-164 | the fetch loop keeps exactly the successful details, in id order |
| Server.LimitedFetchIsPrefix | MCP/McpServer.cs:140-164 | the articles fetched under a limit are a prefix of those fetched without one |
| Server.GetUserArticles | MCP/McpServer.cs:125-189 | the list fails with the user lookup's message, or else with the article-id lookup's message; when both succeed the total counts every id and the articles are the details that could be fetched of the ids within the limit, in order |
| Server.UserArticlesLimit | MCP/McpServer.cs:125-189 | a limit changes neither success, nor a failure's message, nor the total; it only cuts the list to a prefix |
| Server.GetSearchArticles | MCP/McpServer.cs:194-253 | search succeeds exactly when the query lookup does and otherwise fails with its message; the total counts every match and the articles are the details that could be fetched of the matches within the limit, in order |
| Server.SearchArticlesLimit | MCP/McpServer.cs:194-253 | a limit changes neither success nor a failure's message; on success it keeps the total and cuts the list to a prefix |
| Server.ResolvePublicationId | MCP/McpServer.cs:628-639 | an input shorter than ten characters or containing a hyphen is resolved as a slug; any other is used as the id |
| Server.GetPublicationArticles | MCP/McpServer.cs:617-701 | the publication id is the input or the slug's resolution; the call fails with the message of the first of resolution, publication lookup and article-id lookup that raises; otherwise it carries the publication's name and slug, the total of its ids, and the fetchable details of the ids within the limit |
| Server.PublicationArticlesLimit | MCP/McpServer.cs:656-658 | a limit changes neither success, nor a failure's message, nor the publication id or total; it only cuts the list to a prefix |
| Server.TagInfos | MCP/McpServer.cs:268-283 | tag lookups succeed exactly when every one does, and give the tags in order; otherwise the first failing lookup's message is raised |
| Server.SearchTags | MCP/McpServer.cs:258-304 | tag search succeeds exactly when the search and every tag lookup do, and then lists each id's tag information in order; it fails with the search's message, or else with the first failing tag lookup's |
| Server.InsertIsPermutation | MCP/McpServer.cs:331 | inserting adds the article and loses nothing |
| Server.InsertKeepsOrder | MCP/McpServer.cs:331 | inserting into a list ordered by claps keeps it ordered |
| Server.SortByClaps | MCP/McpServer.cs:331 | the sort orders by claps, most first, and is a permutation of its input |
| Server.InsertKeepsTies | MCP/McpServer.cs:331 | insertion places the new article before the equal-clap articles already present, without reordering them |
| Server.SortIsStable | MCP/McpServer.cs:331 | articles with equal claps keep their relative order, as `OrderByDescending` promises |
| Server.WithClapsPrefix | MCP/McpServer.cs:332 | cutting a list to its first articles keeps, for each clap count, a prefix of the articles with that count |
| Server.SortedPrefix | MCP/McpServer.cs:330-333 | the first `n` articles of the stable sort are ordered by claps, drawn from the input, and hold the earliest articles of each clap count in input order |
| Server.TopByClaps | MCP/McpServer.cs:330-333 | the top list is ordered, drawn from the input, has `topCount` articles when that many exist, none for `topCount <= 0`, and all of them when `topCount` covers the list; among articles with equal claps it keeps the earliest ones, in their input order |
| Server.PrefixDominates | MCP/McpServer.cs:330-333 | in a list ordered by claps, nothing after a cut has more claps than anything before it |
| Server.TopByClapsLeavesOutNoBetter | MCP/McpServer.cs:330-333 | no article left out of the top list has more claps than one kept |
| Server.GetTopArticlesByClaps | MCP/McpServer.cs:309-363 | the top articles succeed exactly when listing all the user's articles does, and then rank those articles with criteria "Claps" |
| Server.Average | MCP/McpServer.cs:423-425 | the average is the total divided by the count, truncated |
| Server.Engagement | MCP/McpServer.cs:387-426 | no articles gives all zeros; a sum beyond `int` fails with the overflow message; otherwise the totals are the sums and the averages their truncated quotients |
| Server.GetEngagementMetrics | MCP/McpServer.cs:368-440 | a failure to list the user's articles is passed on; otherwise the metrics are those of all the user's articles |
| Server.NormalizeFormat | MCP/McpServer.cs:509-539 | the served format is markdown, html or text; html exactly for "html", text exactly for "text" or "txt", in any case |
| Server.NormalizeFormatIdempotent | MCP/McpServer.cs:509-539 | normalising a served format changes nothing |
| Server.GetArticleContent | MCP/McpServer.cs:497-568 | the call fails with the article lookup's message, or else with the message of the content call for the normalised format; otherwise it succeeds with that content, its length, the normalised format and the article's title, subtitle, address and date |
| Server.ContentInServedFormat | MCP/McpServer.cs:509-539 | asking again in the format that was served gives the same answer |
| App.ListsTheCatalog | MCP/McpProtocolHandler.cs:237-291 | tools/list on the assembled server succeeds and answers with the listed catalog |
| App.ToolCallAlwaysAResult | MCP/McpProtocolHandler.cs:326-350 | a tool call is answered with a result, never a JSON-RPC error, whose one text item is the dispatcher's text |
| App.UnknownToolAnswered | MCP/McpToolHandler.cs:404-407 | a call for an unknown name is answered with the serialized "Unknown tool" object |
| App.MissingArgumentAnswered | MCP/McpToolHandler.cs:409-424 | a call without its required argument is answered with the error object naming the parameter and the tool |
| App.BlogStatisticsAnswered | MCP/McpToolHandler.cs:260-270 | `get_blog_statistics` with a username answers with the rendering of the statistics for that user |
| App.LineAnsweredAsRequest | MCP/McpProtocolHandler.cs:45-75 | a line holding a request's document is answered as that request |

## Left out

- Console I/O, `async`, logging, timing, cancellation, dependency injection and
  `Program.cs` are not modelled. The input is a list of lines, where `None`
  marks end of input, and the output is a list of messages.
- End of input: `ReadLineAsync` returns null, which the loop skips like an
  empty line, so the source loops forever at end of input. The model stops at
  the end of the list.
- JSON text is not parsed or written. `Protocol.Codec` and
  `Dispatch.ToolCodec` supply the reader, the writer and the message of the
  conversion exception. `JsonElement.ToString` on numbers, arrays and objects
  is the writer's raw text. How a repeated member name in one object is
  settled is left to the reader.
- The result records reach the client as serialized text
  (`ToolCodec.renderResult`). Their property names follow the serializer's
  default options (PascalCase), unlike the protocol messages' camelCase. The
  model does not spell out that rendering.
- The exception stack trace is opaque (`ToolCodec.stackTrace`).
- The Medium, search and platform clients are functions in `Client.Api`. A
  client call either returns a record or raises with a message. Timeouts and
  exceptions without a message are not distinguished.
- `ToLowerInvariant` is modelled on ASCII letters only, and every other
  character keeps its case. Other letters lower to non-ASCII letters, so a
  name or format word holding one matches nothing either way. The one
  exception is the Kelvin sign (U+212A), which lowers to 'k'. No tool name
  contains 'k', and in a format word the only affected keyword
  ("markdown") is also the default, so the outcome is unchanged. U+0130 is
  left unchanged by invariant lowering, as the model leaves it.
- `int.TryParse` reads the positive and negative signs from the current
  culture's number format (U+2212 under some cultures). The model fixes them
  to '+' and '-', as the invariant format has them.
- Strings are sequences of characters. C# `Length` counts UTF-16 code
  units, which the model does not distinguish from characters. This affects
  `content.Length` and the slug test `publicationSlugOrId.Length < 10`
  (`Server.LooksLikeSlug`). An input of five characters outside the Basic
  Multilingual Plane has length 10 in the source and is used as an id. In
  the model it has length 5 and is resolved as a slug.
- `ToString` overrides of the records, `McpServiceExtensions` beyond the
  wiring that `App.Handler` builds, and the `IMcpToolHandler` interface are not
  modelled.
- A value in the argument map that is neither a `JsonElement` nor null cannot
  arise from the deserializer, so `GetIntParameter`'s `value is int` branch
  and the non-element branches of the string accessors are not modelled.
- Dispatch.Execute has no contract of its own. What each operation promises
  is stated on the `Server` functions it calls, and
  `Dispatch.HandleToolCall` states that a completed call ran it.
- Server.Engagement: claps, responses and voters are modelled as
  non-negative, as the Medium client reports them. With negative values a
  checked `int` sum could overflow in an intermediate step even when the
  total fits, and the model does not cover that.
