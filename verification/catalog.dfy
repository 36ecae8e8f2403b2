/** The fixed catalog of tools the server offers: each tool's name, what it
    does, and its parameters, in the order the catalog lists them. */
module Catalog {
  import opened Base

  /** A parameter's JSON type name, its description, and whether callers must supply it. */
  datatype ToolParameter = ToolParameter(typeName: string, description: string, required: bool)

  /** A tool: its name, what it does, and its parameters in declaration order. */
  datatype ToolDefinition = ToolDefinition(
    name: string,
    description: string,
    parameters: seq<(string, ToolParameter)>)

  /** The eleven tools. */
  datatype Tool =
    | BlogStatistics | ArticleDetails | UserArticles | SearchArticles | SearchTags
    | TopArticlesByClaps | EngagementMetrics | PublicationInfo | ArticleContent
    | UserInfoById | PublicationArticles

  /** The order in which the catalog lists the tools. */
  function Order(): seq<Tool> {
    [BlogStatistics, ArticleDetails, UserArticles, SearchArticles, SearchTags,
     TopArticlesByClaps, EngagementMetrics, PublicationInfo, ArticleContent,
     UserInfoById, PublicationArticles]
  }

  function Name(t: Tool): string {
    match t
    case BlogStatistics => "get_blog_statistics"
    case ArticleDetails => "get_article_details"
    case UserArticles => "get_user_articles"
    case SearchArticles => "search_articles"
    case SearchTags => "search_tags"
    case TopArticlesByClaps => "get_top_articles_by_claps"
    case EngagementMetrics => "get_engagement_metrics"
    case PublicationInfo => "get_publication_info"
    case ArticleContent => "get_article_content"
    case UserInfoById => "get_user_info_by_id"
    case PublicationArticles => "get_publication_articles"
  }

  function Description(t: Tool): string {
    match t
    case BlogStatistics => "Get comprehensive blog statistics for a Medium user including follower count, article count, bio, and social links"
    case ArticleDetails => "Get detailed information about a specific article including claps, responses, voters, tags, and publication date"
    case UserArticles => "Get all articles for a Medium user with optional limit"
    case SearchArticles => "Search for Medium articles by query string"
    case SearchTags => "Search for Medium tags and get information about article and author counts"
    case TopArticlesByClaps => "Get the top performing articles for a user ranked by number of claps"
    case EngagementMetrics => "Get comprehensive engagement metrics for a user's articles including total and average claps, responses, and voters"
    case PublicationInfo => "Get publication information including name, tagline, description, followers, tags, and social media links"
    case ArticleContent => "Get full article content in markdown, HTML, or plain text format. Enables content analysis, archiving, and full-text processing."
    case UserInfoById => "Get user information by user ID. Faster than username lookup when you already have the user ID."
    case PublicationArticles => "Get all articles published in a specific Medium publication. Accepts either publication slug (name) or publication ID."
  }

  function Required(description: string): ToolParameter {
    ToolParameter("string", description, true)
  }

  /** The parameter every tool requires: its key and description. */
  function RequiredKey(t: Tool): string {
    match t
    case BlogStatistics => "username"
    case ArticleDetails => "article_id"
    case UserArticles => "username"
    case SearchArticles => "query"
    case SearchTags => "query"
    case TopArticlesByClaps => "username"
    case EngagementMetrics => "username"
    case PublicationInfo => "publication_id"
    case ArticleContent => "article_id"
    case UserInfoById => "user_id"
    case PublicationArticles => "publication_slug_or_id"
  }

  /** What the required parameter's description says. */
  function RequiredDescription(t: Tool): string {
    match t
    case BlogStatistics => "Medium username (e.g., 'jbloggs')"
    case ArticleDetails => "Medium article ID"
    case UserArticles => "Medium username"
    case SearchArticles => "Search query (e.g., 'Verifiable credentials', 'Azure AD')"
    case SearchTags => "Tag search query (e.g., 'Custom policies', 'Entra External ID')"
    case TopArticlesByClaps => "Medium username"
    case EngagementMetrics => "Medium username"
    case PublicationInfo => "Medium publication ID"
    case ArticleContent => "Medium article ID"
    case UserInfoById => "Medium user ID"
    case PublicationArticles => "Publication slug (e.g., 'towards-data-science') or publication ID"
  }

  /** The key of the optional second parameter, for the tools that have one. */
  function OptionalKey(t: Tool): Option<string> {
    match t
    case UserArticles => Some("limit")
    case SearchArticles => Some("limit")
    case TopArticlesByClaps => Some("top_count")
    case ArticleContent => Some("format")
    case PublicationArticles => Some("limit")
    case _ => None
  }

  /** The JSON type the optional parameter declares. */
  function OptionalType(t: Tool): string
    requires OptionalKey(t).Some?
  {
    if t.ArticleContent? then "string" else "integer"
  }

  function OptionalDescription(t: Tool): string
    requires OptionalKey(t).Some?
  {
    match t
    case UserArticles => "Maximum number of articles to return (optional)"
    case SearchArticles => "Maximum number of results to return (optional)"
    case TopArticlesByClaps => "Number of top articles to return (default: 10)"
    case ArticleContent => "Content format: 'markdown' (default), 'html', or 'text'"
    case PublicationArticles => "Maximum number of articles to return (optional)"
  }

  /** The optional parameter as declared: never marked required. */
  function OptionalParameter(t: Tool): Option<(string, ToolParameter)> {
    match OptionalKey(t)
    case None => None
    case Some(key) => Some((key, ToolParameter(OptionalType(t), OptionalDescription(t), false)))
  }

  /** The required parameter as declared. */
  function RequiredParameter(t: Tool): (string, ToolParameter) {
    (RequiredKey(t), Required(RequiredDescription(t)))
  }

  /** The parameters in declaration order: the required one, then the optional one if any. */
  function Parameters(t: Tool): seq<(string, ToolParameter)> {
    [RequiredParameter(t)] + if OptionalParameter(t).Some? then [OptionalParameter(t).value] else []
  }

  function Definition(t: Tool): ToolDefinition {
    ToolDefinition(Name(t), Description(t), Parameters(t))
  }

  /** The catalog as the dispatcher hands it out, one definition per tool in `Order`. */
  function Definitions(): seq<ToolDefinition> {
    seq(|Order()|, k requires 0 <= k < |Order()| => Definition(Order()[k]))
  }

  /** No two tools share a name. */
  lemma NameInjective(t: Tool, u: Tool)
    ensures Name(t) == Name(u) ==> t == u
  {
  }

  /** Every tool name is already in lower case, so it survives the lowering
      the dispatcher applies to the requested name. */
  lemma NamesLowercase(t: Tool)
    ensures Lower(Name(t)) == Name(t)
  {
    match t
    case BlogStatistics => LowerOfLowercase(Name(BlogStatistics));
    case ArticleDetails => LowerOfLowercase(Name(ArticleDetails));
    case UserArticles => LowerOfLowercase(Name(UserArticles));
    case SearchArticles => LowerOfLowercase(Name(SearchArticles));
    case SearchTags => LowerOfLowercase(Name(SearchTags));
    case TopArticlesByClaps => LowerOfLowercase(Name(TopArticlesByClaps));
    case EngagementMetrics => LowerOfLowercase(Name(EngagementMetrics));
    case PublicationInfo => LowerOfLowercase(Name(PublicationInfo));
    case ArticleContent => LowerOfLowercase(Name(ArticleContent));
    case UserInfoById => LowerOfLowercase(Name(UserInfoById));
    case PublicationArticles => LowerOfLowercase(Name(PublicationArticles));
  }

  /** The catalog lists every tool exactly once, and lists eleven. */
  lemma OrderComplete(t: Tool)
    ensures |Order()| == 11
    ensures t in Order()
    ensures forall i, j :: 0 <= i < j < |Order()| ==> Order()[i] != Order()[j]
  {
  }

  /** The `k`-th definition is that of the `k`-th tool in the order. */
  lemma DefinitionsFollowOrder()
    ensures |Definitions()| == |Order()|
    ensures forall k :: 0 <= k < |Order()| ==> Definitions()[k] == Definition(Order()[k])
  {
  }

  /** The optional parameter is not marked required and does not repeat the required key. */
  lemma OptionalIsOptional(t: Tool)
    ensures OptionalParameter(t).Some? ==> !OptionalParameter(t).value.1.required
    ensures OptionalKey(t).Some? ==> OptionalKey(t).value != RequiredKey(t)
  {
  }

  /** Every tool has exactly one required parameter, it is declared first,
      and no tool declares a parameter twice. */
  lemma OneRequiredParameterFirst(t: Tool)
    ensures |Parameters(t)| > 0 && Parameters(t)[0].1.required
    ensures forall k :: 1 <= k < |Parameters(t)| ==> !Parameters(t)[k].1.required
    ensures forall i, j :: 0 <= i < j < |Parameters(t)| ==> Parameters(t)[i].0 != Parameters(t)[j].0
  {
    var ps := Parameters(t);
    assert ps[0] == RequiredParameter(t);
    OptionalIsOptional(t);
    if OptionalParameter(t).Some? {
      assert |ps| == 2 && ps[1] == OptionalParameter(t).value;
    } else {
      assert |ps| == 1;
    }
  }
}
