/** The eleven operations of the server, with every Medium client call
    supplied as a function of `Client.Api`. Nine operations are a body that
    may raise (`Result`) wrapped by `Catch`, which turns any exception into
    `Success = false` carrying the exception's message; the top-articles and
    engagement operations pass on the article list's failure themselves, and
    engagement reports the overflow of a checked sum as its failure. */
module Server {
  import opened Base
  import opened Models
  import opened Client

  const ProfileUrlPrefix: string := "https://medium.com/@"
  const ClapsCriteria: string := "Claps"
  /** The message of the `OverflowException` a checked `int` sum raises. */
  const OverflowMessage: string := "Arithmetic operation resulted in an overflow."

  /** The `try { … } catch (Exception ex)` every operation is wrapped in. */
  function Catch<T>(body: Result<T>): (r: McpResult<T>)
    ensures r.Success? <==> body.Ok?
    ensures body.Ok? ==> r.data == body.value
    ensures body.Throw? ==> r.errorMessage == body.message
  {
    match body
    case Ok(v) => Success(v)
    case Throw(m) => Failure(m)
  }

  // ----- Limits ---------------------------------------------------------

  /** `Enumerable.Take(n)`: the first `n` elements, none when `n <= 0`. */
  function Take<T>(s: seq<T>, n: int): (r: seq<T>)
    ensures |r| <= |s|
    ensures r == s[..|r|]
    ensures n <= 0 ==> r == []
    ensures n >= |s| ==> r == s
    ensures 0 <= n <= |s| ==> |r| == n
  {
    if n <= 0 then [] else if n < |s| then s[..n] else s
  }

  /** The ids whose details are fetched: all of them without a limit, the
      first `limit` of them with one. */
  function IdsToFetch(ids: seq<string>, limit: Option<int>): (r: seq<string>)
    ensures |r| <= |ids|
    ensures r == ids[..|r|]
    ensures limit.None? ==> r == ids
    ensures limit.Some? ==> r == Take(ids, limit.value)
  {
    match limit
    case None => ids
    case Some(n) => Take(ids, n)
  }

  // ----- Single records -------------------------------------------------

  function BlogStatisticsBody(api: Api, username: string): Result<BlogStatistics> {
    var u :- api.userByName(username);
    var ids :- api.articleIdsOfUser(u.id);
    Ok(BlogStatistics(username, u.fullname, u.id, u.followersCount, |ids|,
                      u.bio, u.imageUrl, u.twitterUsername))
  }

  /** The user's profile with the number of their articles. It fails with
      the message of the first of its two lookups that raises. */
  function GetBlogStatistics(api: Api, username: string): (r: McpResult<BlogStatistics>)
    ensures api.userByName(username).Throw? ==> r == Failure(api.userByName(username).message)
    ensures api.userByName(username).Ok? ==>
              var u := api.userByName(username).value;
              var ids := api.articleIdsOfUser(u.id);
              && (ids.Throw? ==> r == Failure(ids.message))
              && (ids.Ok? ==>
                    && r.Success?
                    && r.data.username == username
                    && r.data.fullName == u.fullname
                    && r.data.userId == u.id
                    && r.data.followersCount == u.followersCount
                    && r.data.articleCount == |ids.value|
                    && r.data.bio == u.bio
                    && r.data.imageUrl == u.imageUrl
                    && r.data.twitterUsername == u.twitterUsername)
  {
    Catch(BlogStatisticsBody(api, username))
  }

  function ToArticleDetails(a: ArticleRecord): ArticleDetails {
    ArticleDetails(a.id, a.title, a.subtitle, a.claps, a.responsesCount, a.voters,
                   a.url, a.publishedDate, a.tags.GetOr([]), a.topics.GetOr([]))
  }

  /** One article's details; missing tag and topic lists become empty lists. */
  function GetArticleDetails(api: Api, articleId: string): (r: McpResult<ArticleDetails>)
    ensures r.Success? <==> api.article(articleId).Ok?
    ensures r.Failure? ==> r.errorMessage == api.article(articleId).message
    ensures r.Success? ==>
              var a := api.article(articleId).value;
              && r.data.id == a.id
              && r.data.title == a.title
              && r.data.subtitle == a.subtitle
              && r.data.claps == a.claps
              && r.data.responsesCount == a.responsesCount
              && r.data.voters == a.voters
              && r.data.url == a.url
              && r.data.publishedDate == a.publishedDate
              && (a.tags.Some? ==> r.data.tags == a.tags.value)
              && (a.tags.None? ==> r.data.tags == [])
              && (a.topics.Some? ==> r.data.topics == a.topics.value)
              && (a.topics.None? ==> r.data.topics == [])
  {
    Catch(ArticleDetailsBody(api, articleId))
  }

  function ArticleDetailsBody(api: Api, articleId: string): Result<ArticleDetails> {
    var a :- api.article(articleId);
    Ok(ToArticleDetails(a))
  }

  function PublicationInfoBody(api: Api, publicationId: string): Result<PublicationInfo> {
    var p :- api.publication(publicationId);
    Ok(PublicationInfo(p.id, p.name, p.tagLine, p.description, p.tags.GetOr([]), p.followers,
                       p.instagramUsername, p.facebookPageName, p.twitterUsername, p.url,
                       p.slug, p.creatorId, p.editors))
  }

  /** A publication's information; a missing tag list becomes an empty list. */
  function GetPublicationInfo(api: Api, publicationId: string): (r: McpResult<PublicationInfo>)
    ensures r.Success? <==> api.publication(publicationId).Ok?
    ensures r.Failure? ==> r.errorMessage == api.publication(publicationId).message
    ensures r.Success? ==>
              var p := api.publication(publicationId).value;
              && r.data.id == p.id
              && r.data.name == p.name
              && r.data.tagline == p.tagLine
              && r.data.description == p.description
              && (p.tags.Some? ==> r.data.tags == p.tags.value)
              && (p.tags.None? ==> r.data.tags == [])
              && r.data.followers == p.followers
              && r.data.instagramUsername == p.instagramUsername
              && r.data.facebookPageName == p.facebookPageName
              && r.data.twitterUsername == p.twitterUsername
              && r.data.url == p.url
              && r.data.slug == p.slug
              && r.data.creator == p.creatorId
              && r.data.editors == p.editors
  {
    Catch(PublicationInfoBody(api, publicationId))
  }

  /** The profile address of a user. */
  function ProfileUrl(username: string): (url: string)
    ensures |url| == |ProfileUrlPrefix| + |username|
    ensures url[..|ProfileUrlPrefix|] == ProfileUrlPrefix
    ensures url[|ProfileUrlPrefix|..] == username
  {
    ProfileUrlPrefix + username
  }

  function UserInfoBody(api: Api, userId: string): Result<UserInfo> {
    var u :- api.userById(userId);
    Ok(UserInfo(u.id, u.username, u.fullname, u.followersCount, u.bio, u.imageUrl,
                u.twitterUsername, Some(ProfileUrl(u.username))))
  }

  /** A user's profile looked up by id, with the profile address built from
      the username the lookup returned (not from the id asked for). */
  function GetUserInfoById(api: Api, userId: string): (r: McpResult<UserInfo>)
    ensures r.Success? <==> api.userById(userId).Ok?
    ensures r.Failure? ==> r.errorMessage == api.userById(userId).message
    ensures r.Success? ==>
              var u := api.userById(userId).value;
              && r.data.userId == u.id
              && r.data.username == u.username
              && r.data.fullName == u.fullname
              && r.data.followersCount == u.followersCount
              && r.data.bio == u.bio
              && r.data.imageUrl == u.imageUrl
              && r.data.twitterUsername == u.twitterUsername
              && r.data.profileUrl == Some(ProfileUrl(u.username))
  {
    Catch(UserInfoBody(api, userId))
  }

  // ----- Article lists --------------------------------------------------

  /** The details of `ids` that could be fetched, in the order of `ids`; an
      id whose fetch failed contributes nothing. */
  function Fetched(api: Api, ids: seq<string>): (r: seq<ArticleDetails>)
    ensures |r| <= |ids|
    ensures forall k :: 0 <= k < |r| ==>
              exists j :: 0 <= j < |ids| && GetArticleDetails(api, ids[j]) == Success(r[k])
    decreases |ids|
  {
    if |ids| == 0 then []
    else
      var rest := Fetched(api, ids[1..]);
      assert forall k :: 0 <= k < |rest| ==>
               exists j :: 0 <= j < |ids| && GetArticleDetails(api, ids[j]) == Success(rest[k]) by {
        forall k | 0 <= k < |rest|
          ensures exists j :: 0 <= j < |ids| && GetArticleDetails(api, ids[j]) == Success(rest[k])
        {
          var j :| 0 <= j < |ids[1..]| && GetArticleDetails(api, ids[1..][j]) == Success(rest[k]);
          assert ids[1..][j] == ids[j + 1];
        }
      }
      match GetArticleDetails(api, ids[0])
      case Success(a) => [a] + rest
      case Failure(_) => rest
  }

  /** Fetching a concatenation fetches each part in turn. */
  lemma {:induction false} FetchedAppend(api: Api, a: seq<string>, b: seq<string>)
    ensures Fetched(api, a + b) == Fetched(api, a) + Fetched(api, b)
    decreases |a|
  {
    if |a| == 0 {
      assert a + b == b;
    } else {
      assert (a + b)[1..] == a[1..] + b;
      assert (a + b)[0] == a[0];
      FetchedAppend(api, a[1..], b);
    }
  }

  /** When every fetch succeeds nothing is dropped: the i-th article is the
      details of the i-th id. */
  lemma {:induction false} FetchedAllSucceed(api: Api, ids: seq<string>)
    requires forall j :: 0 <= j < |ids| ==> GetArticleDetails(api, ids[j]).Success?
    ensures |Fetched(api, ids)| == |ids|
    ensures forall j :: 0 <= j < |ids| ==> Fetched(api, ids)[j] == GetArticleDetails(api, ids[j]).data
    decreases |ids|
  {
    if |ids| > 0 {
      assert forall j :: 0 <= j < |ids[1..]| ==> ids[1..][j] == ids[j + 1];
      FetchedAllSucceed(api, ids[1..]);
    }
  }

  /** The `foreach` over the ids to fetch: keeps the details of each fetch
      that succeeded, in id order. */
  method CollectArticles(api: Api, ids: seq<string>) returns (articles: seq<ArticleDetails>)
    ensures articles == Fetched(api, ids)
  {
    articles := [];
    var i := 0;
    while i < |ids|
      invariant 0 <= i <= |ids|
      invariant articles == Fetched(api, ids[..i])
    {
      var details := GetArticleDetails(api, ids[i]);
      if details.Success? {
        articles := articles + [details.data];
      }
      FetchedAppend(api, ids[..i], [ids[i]]);
      assert ids[..i + 1] == ids[..i] + [ids[i]];
      i := i + 1;
    }
    assert ids[..|ids|] == ids;
  }

  /** With a limit, the fetched articles are a prefix of those fetched without one. */
  lemma LimitedFetchIsPrefix(api: Api, ids: seq<string>, limit: Option<int>)
    ensures Fetched(api, IdsToFetch(ids, limit)) <= Fetched(api, ids)
  {
    var head := IdsToFetch(ids, limit);
    assert ids == head + ids[|head|..];
    FetchedAppend(api, head, ids[|head|..]);
  }

  function UserArticlesBody(api: Api, username: string, limit: Option<int>): Result<UserArticles> {
    var u :- api.userByName(username);
    var ids :- api.articleIdsOfUser(u.id);
    Ok(UserArticles(username, u.fullname, |ids|, Fetched(api, IdsToFetch(ids, limit))))
  }

  /** A user's articles: the total counts every id, the list holds the
      fetchable details of the first `limit` ids. It fails with the message
      of the first of its two lookups that raises; a failed article fetch
      only drops that article. */
  function GetUserArticles(api: Api, username: string, limit: Option<int>): (r: McpResult<UserArticles>)
    ensures api.userByName(username).Throw? ==> r == Failure(api.userByName(username).message)
    ensures api.userByName(username).Ok? ==>
              var u := api.userByName(username).value;
              var ids := api.articleIdsOfUser(u.id);
              && (ids.Throw? ==> r == Failure(ids.message))
              && (ids.Ok? ==>
                    && r.Success?
                    && r.data.username == username
                    && r.data.fullName == u.fullname
                    && r.data.totalArticleCount == |ids.value|
                    && r.data.articles == Fetched(api, IdsToFetch(ids.value, limit)))
    ensures r.Success? ==> |r.data.articles| <= r.data.totalArticleCount
    ensures r.Success? && limit.Some? ==> |r.data.articles| <= if limit.value < 0 then 0 else limit.value
  {
    Catch(UserArticlesBody(api, username, limit))
  }

  /** The statistics count the same articles the article list totals, and
      fail exactly when it does, with the same message. */
  lemma BlogStatisticsCountsUserArticles(api: Api, username: string)
    ensures GetBlogStatistics(api, username).Success? <==> GetUserArticles(api, username, None).Success?
    ensures GetBlogStatistics(api, username).Failure? ==>
              GetBlogStatistics(api, username).errorMessage == GetUserArticles(api, username, None).errorMessage
    ensures GetBlogStatistics(api, username).Success? ==>
              GetBlogStatistics(api, username).data.articleCount
                == GetUserArticles(api, username, None).data.totalArticleCount
  {
  }

  /** A limit changes neither success nor the total; it only cuts the list. */
  lemma UserArticlesLimit(api: Api, username: string, limit: int)
    ensures GetUserArticles(api, username, Some(limit)).Success?
            <==> GetUserArticles(api, username, None).Success?
    ensures GetUserArticles(api, username, Some(limit)).Failure? ==>
              GetUserArticles(api, username, Some(limit)) == GetUserArticles(api, username, None)
    ensures GetUserArticles(api, username, Some(limit)).Success? ==>
              var cut := GetUserArticles(api, username, Some(limit)).data;
              var all := GetUserArticles(api, username, None).data;
              cut.totalArticleCount == all.totalArticleCount && cut.articles <= all.articles
  {
    if api.userByName(username).Ok? {
      var ids := api.articleIdsOfUser(api.userByName(username).value.id);
      if ids.Ok? {
        LimitedFetchIsPrefix(api, ids.value, Some(limit));
      }
    }
  }

  function SearchArticlesBody(api: Api, query: string, limit: Option<int>): Result<SearchArticles> {
    var ids :- api.searchArticles(query);
    Ok(SearchArticles(query, |ids|, Fetched(api, IdsToFetch(ids, limit))))
  }

  /** Articles matching a query: the total counts every match, the list holds
      the fetchable details of the first `limit` matches. */
  function GetSearchArticles(api: Api, query: string, limit: Option<int>): (r: McpResult<SearchArticles>)
    ensures r.Success? <==> api.searchArticles(query).Ok?
    ensures r.Failure? ==> r.errorMessage == api.searchArticles(query).message
    ensures r.Success? ==>
              var ids := api.searchArticles(query).value;
              && r.data.query == query
              && r.data.totalResultsCount == |ids|
              && r.data.articles == Fetched(api, IdsToFetch(ids, limit))
    ensures r.Success? ==> |r.data.articles| <= r.data.totalResultsCount
  {
    Catch(SearchArticlesBody(api, query, limit))
  }

  /** A limit changes neither success, nor a failure's message, nor the
      total; it only cuts the list. */
  lemma SearchArticlesLimit(api: Api, query: string, limit: int)
    ensures GetSearchArticles(api, query, Some(limit)).Success?
            <==> GetSearchArticles(api, query, None).Success?
    ensures GetSearchArticles(api, query, Some(limit)).Failure? ==>
              GetSearchArticles(api, query, Some(limit)) == GetSearchArticles(api, query, None)
    ensures GetSearchArticles(api, query, Some(limit)).Success? ==>
              var cut := GetSearchArticles(api, query, Some(limit)).data;
              var all := GetSearchArticles(api, query, None).data;
              cut.totalResultsCount == all.totalResultsCount && cut.articles <= all.articles
  {
    if api.searchArticles(query).Ok? {
      LimitedFetchIsPrefix(api, api.searchArticles(query).value, Some(limit));
    }
  }

  /** A slug is anything shorter than ten characters or containing a hyphen. */
  predicate LooksLikeSlug(s: string) {
    |s| < 10 || '-' in s
  }

  /** The publication id: resolved through the client for a slug, the input
      itself otherwise. */
  function ResolvePublicationId(api: Api, slugOrId: string): (r: Result<string>)
    ensures LooksLikeSlug(slugOrId) ==> r == api.publicationIdOf(slugOrId)
    ensures !LooksLikeSlug(slugOrId) ==> r == Ok(slugOrId)
  {
    if LooksLikeSlug(slugOrId) then api.publicationIdOf(slugOrId) else Ok(slugOrId)
  }

  function PublicationArticlesBody(api: Api, slugOrId: string, limit: Option<int>): Result<PublicationArticles> {
    var publicationId :- ResolvePublicationId(api, slugOrId);
    var info :- api.publication(publicationId);
    var ids :- api.publicationArticleIds(publicationId);
    Ok(PublicationArticles(publicationId, info.name, info.slug, |ids|,
                           Fetched(api, IdsToFetch(ids, limit))))
  }

  /** A publication's articles, found by slug or by id. It fails with the
      message of the first of its three lookups that raises: resolving the
      slug, the publication, its article ids. */
  function GetPublicationArticles(api: Api, slugOrId: string, limit: Option<int>): (r: McpResult<PublicationArticles>)
    ensures !LooksLikeSlug(slugOrId) && r.Success? ==> r.data.publicationId == slugOrId
    ensures LooksLikeSlug(slugOrId) && r.Success? ==> api.publicationIdOf(slugOrId) == Ok(r.data.publicationId)
    ensures ResolvePublicationId(api, slugOrId).Throw? ==>
              r == Failure(ResolvePublicationId(api, slugOrId).message)
    ensures ResolvePublicationId(api, slugOrId).Ok? ==>
              var pid := ResolvePublicationId(api, slugOrId).value;
              && (api.publication(pid).Throw? ==> r == Failure(api.publication(pid).message))
              && (api.publication(pid).Ok? ==>
                    var info := api.publication(pid).value;
                    var ids := api.publicationArticleIds(pid);
                    && (ids.Throw? ==> r == Failure(ids.message))
                    && (ids.Ok? ==>
                          && r.Success?
                          && r.data.publicationId == pid
                          && r.data.publicationName == info.name
                          && r.data.publicationSlug == info.slug
                          && r.data.totalArticleCount == |ids.value|
                          && r.data.articles == Fetched(api, IdsToFetch(ids.value, limit))))
    ensures r.Success? ==> |r.data.articles| <= r.data.totalArticleCount
  {
    Catch(PublicationArticlesBody(api, slugOrId, limit))
  }

  /** A limit changes neither success, nor a failure's message, nor the
      total; it only cuts the list. */
  lemma PublicationArticlesLimit(api: Api, slugOrId: string, limit: int)
    ensures GetPublicationArticles(api, slugOrId, Some(limit)).Success?
            <==> GetPublicationArticles(api, slugOrId, None).Success?
    ensures GetPublicationArticles(api, slugOrId, Some(limit)).Failure? ==>
              GetPublicationArticles(api, slugOrId, Some(limit)) == GetPublicationArticles(api, slugOrId, None)
    ensures GetPublicationArticles(api, slugOrId, Some(limit)).Success? ==>
              var cut := GetPublicationArticles(api, slugOrId, Some(limit)).data;
              var all := GetPublicationArticles(api, slugOrId, None).data;
              && cut.publicationId == all.publicationId
              && cut.totalArticleCount == all.totalArticleCount
              && cut.articles <= all.articles
  {
    var pid := ResolvePublicationId(api, slugOrId);
    if pid.Ok? && api.publication(pid.value).Ok? {
      var ids := api.publicationArticleIds(pid.value);
      if ids.Ok? {
        LimitedFetchIsPrefix(api, ids.value, Some(limit));
      }
    }
  }

  // ----- Tags -----------------------------------------------------------

  function ToTagInfo(t: TagRecord): TagInfo {
    TagInfo(t.tag, t.articlesCount, t.authorsCount)
  }

  /** The information of every tag, in order; the first tag whose lookup
      raises makes the whole lookup raise with that message. */
  function TagInfos(api: Api, ids: seq<string>): (r: Result<seq<TagInfo>>)
    ensures r.Ok? <==> forall k :: 0 <= k < |ids| ==> api.tag(ids[k]).Ok?
    ensures r.Ok? ==> |r.value| == |ids|
    ensures r.Ok? ==> forall k :: 0 <= k < |ids| ==> r.value[k] == ToTagInfo(api.tag(ids[k]).value)
    ensures r.Throw? ==> exists k :: 0 <= k < |ids| && api.tag(ids[k]) == Throw(r.message)
                                     && forall j :: 0 <= j < k ==> api.tag(ids[j]).Ok?
    decreases |ids|
  {
    if |ids| == 0 then Ok([])
    else
      assert forall k :: 0 <= k < |ids[1..]| ==> ids[1..][k] == ids[k + 1];
      var t :- api.tag(ids[0]);
      var rest :- TagInfos(api, ids[1..]);
      Ok([ToTagInfo(t)] + rest)
  }

  function TagSearchBody(api: Api, query: string): Result<TagSearch> {
    var ids :- api.searchTags(query);
    var tags :- TagInfos(api, ids);
    Ok(TagSearch(query, tags))
  }

  /** Tags matching a query with their counts; one failing tag lookup fails
      the whole search. */
  function SearchTags(api: Api, query: string): (r: McpResult<TagSearch>)
    ensures r.Success? <==>
              && api.searchTags(query).Ok?
              && forall k :: 0 <= k < |api.searchTags(query).value| ==> api.tag(api.searchTags(query).value[k]).Ok?
    ensures r.Success? ==> r.data.query == query && |r.data.tags| == |api.searchTags(query).value|
    ensures r.Success? ==> TagInfos(api, api.searchTags(query).value) == Ok(r.data.tags)
    ensures api.searchTags(query).Throw? ==> r == Failure(api.searchTags(query).message)
    ensures api.searchTags(query).Ok? && TagInfos(api, api.searchTags(query).value).Throw? ==>
              r == Failure(TagInfos(api, api.searchTags(query).value).message)
  {
    Catch(TagSearchBody(api, query))
  }

  // ----- Top articles ---------------------------------------------------

  predicate ClapsDescending(s: seq<ArticleDetails>) {
    forall i, j :: 0 <= i < j < |s| ==> s[i].claps >= s[j].claps
  }

  /** The articles of `s` with exactly `c` claps, in their order in `s`. */
  function WithClaps(s: seq<ArticleDetails>, c: nat): seq<ArticleDetails>
    decreases |s|
  {
    if |s| == 0 then []
    else (if s[0].claps == c then [s[0]] else []) + WithClaps(s[1..], c)
  }

  /** Inserts `a` in front of the first article with no more claps than it. */
  function InsertByClaps(a: ArticleDetails, s: seq<ArticleDetails>): (r: seq<ArticleDetails>)
    ensures |r| == |s| + 1
    decreases |s|
  {
    if |s| == 0 || a.claps >= s[0].claps then [a] + s
    else [s[0]] + InsertByClaps(a, s[1..])
  }

  /** Inserting adds `a` and loses nothing. */
  lemma {:induction false} InsertIsPermutation(a: ArticleDetails, s: seq<ArticleDetails>)
    ensures multiset(InsertByClaps(a, s)) == multiset(s) + multiset{a}
    decreases |s|
  {
    if |s| == 0 || a.claps >= s[0].claps {
      assert InsertByClaps(a, s) == [a] + s;
    } else {
      assert InsertByClaps(a, s) == [s[0]] + InsertByClaps(a, s[1..]);
      InsertIsPermutation(a, s[1..]);
      assert s == [s[0]] + s[1..];
    }
  }

  /** Inserting into a list sorted by claps keeps it sorted. */
  lemma {:induction false} InsertKeepsOrder(a: ArticleDetails, s: seq<ArticleDetails>)
    requires ClapsDescending(s)
    ensures ClapsDescending(InsertByClaps(a, s))
    decreases |s|
  {
    if |s| == 0 || a.claps >= s[0].claps {
      assert InsertByClaps(a, s) == [a] + s;
    } else {
      var tail := InsertByClaps(a, s[1..]);
      assert InsertByClaps(a, s) == [s[0]] + tail;
      InsertKeepsOrder(a, s[1..]);
      InsertIsPermutation(a, s[1..]);
      forall x | x in tail
        ensures x.claps <= s[0].claps
      {
        assert x in multiset(tail);
        if x != a {
          assert x in multiset(s[1..]);
          var k :| 0 <= k < |s[1..]| && s[1..][k] == x;
          assert s[k + 1] == x;
        }
      }
    }
  }

  /** `OrderByDescending(a => a.Claps)`: a stable sort, most claps first. */
  function SortByClaps(s: seq<ArticleDetails>): (r: seq<ArticleDetails>)
    ensures ClapsDescending(r)
    ensures multiset(r) == multiset(s)
    decreases |s|
  {
    if |s| == 0 then []
    else
      assert s == [s[0]] + s[1..];
      var rest := SortByClaps(s[1..]);
      InsertKeepsOrder(s[0], rest);
      InsertIsPermutation(s[0], rest);
      InsertByClaps(s[0], rest)
  }

  lemma WithClapsCons(x: ArticleDetails, s: seq<ArticleDetails>, c: nat)
    ensures WithClaps([x] + s, c) == (if x.claps == c then [x] else []) + WithClaps(s, c)
  {
    assert ([x] + s)[1..] == s;
  }

  lemma {:induction false} InsertKeepsTies(a: ArticleDetails, s: seq<ArticleDetails>, c: nat)
    ensures WithClaps(InsertByClaps(a, s), c) == (if a.claps == c then [a] else []) + WithClaps(s, c)
    decreases |s|
  {
    if |s| == 0 || a.claps >= s[0].claps {
      assert InsertByClaps(a, s) == [a] + s;
      WithClapsCons(a, s, c);
    } else {
      var tail := InsertByClaps(a, s[1..]);
      assert InsertByClaps(a, s) == [s[0]] + tail;
      WithClapsCons(s[0], tail, c);
      InsertKeepsTies(a, s[1..], c);
      assert s == [s[0]] + s[1..];
      WithClapsCons(s[0], s[1..], c);
    }
  }

  /** The sort is stable: articles with equal claps keep their relative order. */
  lemma {:induction false} SortIsStable(s: seq<ArticleDetails>, c: nat)
    ensures WithClaps(SortByClaps(s), c) == WithClaps(s, c)
    decreases |s|
  {
    if |s| > 0 {
      SortIsStable(s[1..], c);
      InsertKeepsTies(s[0], SortByClaps(s[1..]), c);
    }
  }

  /** Cutting a list keeps a prefix of each equal-claps subsequence. */
  lemma {:induction false} WithClapsPrefix(s: seq<ArticleDetails>, n: nat, c: nat)
    requires n <= |s|
    ensures WithClaps(s[..n], c) <= WithClaps(s, c)
    decreases n
  {
    if n > 0 {
      assert s[..n] == [s[0]] + s[1..][..n - 1];
      WithClapsCons(s[0], s[1..][..n - 1], c);
      assert s == [s[0]] + s[1..];
      WithClapsCons(s[0], s[1..], c);
      WithClapsPrefix(s[1..], n - 1, c);
    }
  }

  /** The `topCount` articles with the most claps, most first; among equal
      claps the earlier articles are kept, in their original order. */
  function TopByClaps(articles: seq<ArticleDetails>, topCount: int): (r: seq<ArticleDetails>)
    ensures ClapsDescending(r)
    ensures multiset(r) <= multiset(articles)
    ensures 0 <= topCount <= |articles| ==> |r| == topCount
    ensures topCount <= 0 ==> r == []
    ensures topCount >= |articles| ==> multiset(r) == multiset(articles)
    ensures forall c: nat :: WithClaps(r, c) <= WithClaps(articles, c)
  {
    var r := Take(SortByClaps(articles), topCount);
    assert |SortByClaps(articles)| == |multiset(articles)|;
    SortedPrefix(articles, |r|);
    r
  }

  /** A prefix of the stable sort is ordered, is drawn from the input, and
      holds, for each clap count, the earliest articles with that count in
      their input order. */
  lemma SortedPrefix(articles: seq<ArticleDetails>, n: nat)
    requires n <= |articles|
    ensures |SortByClaps(articles)| == |articles|
    ensures ClapsDescending(SortByClaps(articles)[..n])
    ensures multiset(SortByClaps(articles)[..n]) <= multiset(articles)
    ensures forall c: nat :: WithClaps(SortByClaps(articles)[..n], c) <= WithClaps(articles, c)
  {
    var sorted := SortByClaps(articles);
    assert |sorted| == |multiset(sorted)| == |multiset(articles)| == |articles|;
    assert sorted == sorted[..n] + sorted[n..];
    assert multiset(sorted) == multiset(sorted[..n]) + multiset(sorted[n..]);
    forall c: nat
      ensures WithClaps(sorted[..n], c) <= WithClaps(articles, c)
    {
      WithClapsPrefix(sorted, n, c);
      SortIsStable(articles, c);
    }
  }

  /** In a list sorted by claps, nothing after position `n` beats anything before it. */
  lemma PrefixDominates(sorted: seq<ArticleDetails>, n: nat, x: ArticleDetails, y: ArticleDetails)
    requires ClapsDescending(sorted) && n <= |sorted|
    requires x in sorted[..n] && y in sorted[n..]
    ensures y.claps <= x.claps
  {
    var i :| 0 <= i < n && sorted[..n][i] == x;
    var j :| 0 <= j < |sorted[n..]| && sorted[n..][j] == y;
    assert sorted[i] == x && sorted[n + j] == y;
  }

  /** No article left out of the top list has more claps than any article in it. */
  lemma TopByClapsLeavesOutNoBetter(articles: seq<ArticleDetails>, topCount: int, x: ArticleDetails, y: ArticleDetails)
    requires x in TopByClaps(articles, topCount)
    requires y in multiset(articles) - multiset(TopByClaps(articles, topCount))
    ensures y.claps <= x.claps
  {
    var sorted := SortByClaps(articles);
    var r := TopByClaps(articles, topCount);
    assert r == Take(sorted, topCount);
    var n := |r|;
    assert sorted == sorted[..n] + sorted[n..];
    assert multiset(sorted) == multiset(sorted[..n]) + multiset(sorted[n..]);
    assert y in multiset(sorted[n..]);
    PrefixDominates(sorted, n, x, y);
  }

  /** The user's articles ranked by claps, cut to `topCount`; a failure to
      list them is passed on with its message. */
  function GetTopArticlesByClaps(api: Api, username: string, topCount: int): (r: McpResult<TopArticles>)
    ensures var all := GetUserArticles(api, username, None);
            && (r.Success? <==> all.Success?)
            && (all.Failure? ==> r.errorMessage == all.errorMessage)
            && (r.Success? ==>
                  && r.data.username == username
                  && r.data.criteria == ClapsCriteria
                  && r.data.articles == TopByClaps(all.data.articles, topCount))
  {
    match GetUserArticles(api, username, None)
    case Failure(m) => Failure(m)
    case Success(all) => Success(TopArticles(username, ClapsCriteria, TopByClaps(all.articles, topCount)))
  }

  // ----- Engagement -----------------------------------------------------

  function Claps(a: ArticleDetails): nat { a.claps }
  function Responses(a: ArticleDetails): nat { a.responsesCount }
  function Voters(a: ArticleDetails): nat { a.voters }

  /** `Enumerable.Sum` of one measure over the articles. */
  function Total(s: seq<ArticleDetails>, measure: ArticleDetails -> nat): nat
    decreases |s|
  {
    if |s| == 0 then 0 else measure(s[0]) + Total(s[1..], measure)
  }

  /** `avg` is `total / count` rounded toward zero. */
  predicate IsTruncatedAverage(avg: nat, total: nat, count: nat) {
    avg * count <= total < (avg + 1) * count
  }

  /** `total / count`, the average C# integer division computes. */
  function Average(total: nat, count: nat): (avg: nat)
    requires count > 0
    ensures IsTruncatedAverage(avg, total, count)
  {
    var q := total / count;
    assert total == q * count + total % count;
    assert (q + 1) * count == q * count + count;
    q
  }

  /** Totals and truncated averages over the articles; no articles gives all
      zeros, and a total beyond `int` raises the checked-sum overflow. */
  function Engagement(username: string, articles: seq<ArticleDetails>): (r: McpResult<EngagementMetrics>)
    ensures |articles| == 0 ==> r == Success(EngagementMetrics(username, 0, 0, 0, 0, 0, 0, 0))
    ensures r.Failure? <==>
              && |articles| > 0
              && (Total(articles, Claps) > Int32Max || Total(articles, Responses) > Int32Max
                  || Total(articles, Voters) > Int32Max)
    ensures r.Failure? ==> r.errorMessage == OverflowMessage
    ensures r.Success? ==> r.data.username == username && r.data.totalArticles == |articles|
    ensures r.Success? && |articles| > 0 ==>
              && r.data.totalClaps == Total(articles, Claps)
              && r.data.totalResponses == Total(articles, Responses)
              && r.data.totalVoters == Total(articles, Voters)
              && IsTruncatedAverage(r.data.averageClapsPerArticle, r.data.totalClaps, |articles|)
              && IsTruncatedAverage(r.data.averageResponsesPerArticle, r.data.totalResponses, |articles|)
              && IsTruncatedAverage(r.data.averageVotersPerArticle, r.data.totalVoters, |articles|)
  {
    var n := |articles|;
    if n == 0 then Success(EngagementMetrics(username, 0, 0, 0, 0, 0, 0, 0))
    else
      var claps := Total(articles, Claps);
      var responses := Total(articles, Responses);
      var voters := Total(articles, Voters);
      if claps > Int32Max || responses > Int32Max || voters > Int32Max then Failure(OverflowMessage)
      else
        Success(EngagementMetrics(username, n, claps, responses, voters,
                                  Average(claps, n), Average(responses, n), Average(voters, n)))
  }

  /** Engagement over all of the user's articles; a failure to list them is
      passed on with its message. */
  function GetEngagementMetrics(api: Api, username: string): (r: McpResult<EngagementMetrics>)
    ensures var all := GetUserArticles(api, username, None);
            && (all.Failure? ==> r == Failure(all.errorMessage))
            && (all.Success? ==> r == Engagement(username, all.data.articles))
  {
    match GetUserArticles(api, username, None)
    case Failure(m) => Failure(m)
    case Success(all) => Engagement(username, all.articles)
  }

  // ----- Article content ------------------------------------------------

  /** The content format actually served: the lowered request, with "md"
      meaning markdown, "txt" meaning text, and anything unknown markdown. */
  function NormalizeFormat(format: string): (f: string)
    ensures f == "markdown" || f == "html" || f == "text"
    ensures f == "html" <==> Lower(format) == "html"
    ensures f == "text" <==> Lower(format) == "text" || Lower(format) == "txt"
  {
    var l := Lower(format);
    if l == "markdown" || l == "md" then "markdown"
    else if l == "html" then "html"
    else if l == "text" || l == "txt" then "text"
    else "markdown"
  }

  /** Normalising twice is normalising once. */
  lemma NormalizeFormatIdempotent(format: string)
    ensures NormalizeFormat(NormalizeFormat(format)) == NormalizeFormat(format)
  {
    var f := NormalizeFormat(format);
    LowerOfLowercase(f);
  }

  /** The client call that serves a normalised format. */
  function ContentIn(api: Api, articleId: string, format: string): Result<string>
  {
    if format == "html" then api.html(articleId)
    else if format == "text" then api.text(articleId)
    else api.markdown(articleId)
  }

  function ArticleContentBody(api: Api, articleId: string, format: string): Result<ArticleContent> {
    var a :- api.article(articleId);
    var actual := NormalizeFormat(format);
    var content :- ContentIn(api, articleId, actual);
    Ok(ArticleContent(articleId, a.title, a.subtitle, actual, content, a.url, a.publishedDate, |content|))
  }

  /** An article's full content in the normalised format, with its length.
      It fails with the message of the article lookup or, after it, of the
      content call. */
  function GetArticleContent(api: Api, articleId: string, format: string): (r: McpResult<ArticleContent>)
    ensures api.article(articleId).Throw? ==> r == Failure(api.article(articleId).message)
    ensures api.article(articleId).Ok? ==>
              var content := ContentIn(api, articleId, NormalizeFormat(format));
              && (content.Throw? ==> r == Failure(content.message))
              && (content.Ok? ==> r.Success?)
    ensures r.Success? ==>
              var a := api.article(articleId).value;
              && api.article(articleId).Ok?
              && r.data.articleId == articleId
              && r.data.title == a.title
              && r.data.subtitle == a.subtitle
              && r.data.url == a.url
              && r.data.publishedDate == a.publishedDate
              && r.data.format == NormalizeFormat(format)
              && r.data.contentLength == |r.data.content|
              && ContentIn(api, articleId, r.data.format) == Ok(r.data.content)
  {
    Catch(ArticleContentBody(api, articleId, format))
  }

  /** Asking again in the format that was served gives the same answer:
      the requested format matters only through its normalisation. */
  lemma ContentInServedFormat(api: Api, articleId: string, format: string)
    ensures GetArticleContent(api, articleId, NormalizeFormat(format)) == GetArticleContent(api, articleId, format)
  {
    NormalizeFormatIdempotent(format);
  }
}
