/** The result records the eleven server operations return. Every record
    shares the `Success`/`ErrorMessage` pair of the common base class: a failed
    operation carries only its message, a successful one carries its data. */
module Models {
  import opened Base

  /** A point in time, as the Medium client reports it; only copied, never inspected. */
  type Timestamp = int

  /** `Success = true` with the record's data, or `Success = false` with `ErrorMessage`. */
  datatype McpResult<+T> = Success(data: T) | Failure(errorMessage: string)

  datatype BlogStatistics = BlogStatistics(
    username: string,
    fullName: string,
    userId: string,
    followersCount: nat,
    articleCount: nat,
    bio: Option<string>,
    imageUrl: Option<string>,
    twitterUsername: Option<string>)

  datatype ArticleDetails = ArticleDetails(
    id: string,
    title: string,
    subtitle: Option<string>,
    claps: nat,
    responsesCount: nat,
    voters: nat,
    url: string,
    publishedDate: Timestamp,
    tags: seq<string>,
    topics: seq<string>)

  datatype UserArticles = UserArticles(
    username: string,
    fullName: string,
    totalArticleCount: nat,
    articles: seq<ArticleDetails>)

  datatype SearchArticles = SearchArticles(
    query: string,
    totalResultsCount: nat,
    articles: seq<ArticleDetails>)

  datatype TagInfo = TagInfo(tag: string, articlesCount: nat, authorsCount: nat)

  datatype TagSearch = TagSearch(query: string, tags: seq<TagInfo>)

  datatype TopArticles = TopArticles(
    username: string,
    criteria: string,
    articles: seq<ArticleDetails>)

  datatype EngagementMetrics = EngagementMetrics(
    username: string,
    totalArticles: nat,
    totalClaps: nat,
    totalResponses: nat,
    totalVoters: nat,
    averageClapsPerArticle: nat,
    averageResponsesPerArticle: nat,
    averageVotersPerArticle: nat)

  datatype PublicationInfo = PublicationInfo(
    id: string,
    name: string,
    tagline: Option<string>,
    description: Option<string>,
    tags: seq<string>,
    followers: nat,
    instagramUsername: Option<string>,
    facebookPageName: Option<string>,
    twitterUsername: Option<string>,
    url: Option<string>,
    slug: Option<string>,
    creator: Option<string>,
    editors: Option<seq<string>>)

  datatype ArticleContent = ArticleContent(
    articleId: string,
    title: string,
    subtitle: Option<string>,
    format: string,
    content: string,
    url: string,
    publishedDate: Timestamp,
    contentLength: nat)

  datatype UserInfo = UserInfo(
    userId: string,
    username: string,
    fullName: string,
    followersCount: nat,
    bio: Option<string>,
    imageUrl: Option<string>,
    twitterUsername: Option<string>,
    profileUrl: Option<string>)

  datatype PublicationArticles = PublicationArticles(
    publicationId: string,
    publicationName: string,
    publicationSlug: Option<string>,
    totalArticleCount: nat,
    articles: seq<ArticleDetails>)
}

/** What the Medium client library answers. Its calls go over the network, so
    the model receives them as functions: a call either returns a record or
    raises an exception with a message. */
module Client {
  import opened Base
  import opened Models

  datatype UserRecord = UserRecord(
    id: string,
    username: string,
    fullname: string,
    followersCount: nat,
    bio: Option<string>,
    imageUrl: Option<string>,
    twitterUsername: Option<string>)

  datatype ArticleRecord = ArticleRecord(
    id: string,
    title: string,
    subtitle: Option<string>,
    claps: nat,
    responsesCount: nat,
    voters: nat,
    url: string,
    publishedDate: Timestamp,
    tags: Option<seq<string>>,
    topics: Option<seq<string>>)

  datatype PublicationRecord = PublicationRecord(
    id: string,
    name: string,
    tagLine: Option<string>,
    description: Option<string>,
    tags: Option<seq<string>>,
    followers: nat,
    instagramUsername: Option<string>,
    facebookPageName: Option<string>,
    twitterUsername: Option<string>,
    url: Option<string>,
    slug: Option<string>,
    creatorId: Option<string>,
    editors: Option<seq<string>>)

  datatype TagRecord = TagRecord(tag: string, articlesCount: nat, authorsCount: nat)

  /** The Medium, search and platform clients, one function per call the
      server makes. */
  datatype Api = Api(
    userByName: string -> Result<UserRecord>,
    userById: string -> Result<UserRecord>,
    articleIdsOfUser: string -> Result<seq<string>>,
    article: string -> Result<ArticleRecord>,
    markdown: string -> Result<string>,
    html: string -> Result<string>,
    text: string -> Result<string>,
    publication: string -> Result<PublicationRecord>,
    publicationIdOf: string -> Result<string>,
    publicationArticleIds: string -> Result<seq<string>>,
    searchArticles: string -> Result<seq<string>>,
    searchTags: string -> Result<seq<string>>,
    tag: string -> Result<TagRecord>)
}
