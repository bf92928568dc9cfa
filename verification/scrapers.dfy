/**
 * The scraping core: four platform adapters that turn an upstream search
 * response into normalised posts, and the orchestrator that runs them for a
 * topic and assembles one result per platform.
 *
 * The HTTP request of each adapter is not modelled: an adapter receives the
 * outcome of its request (a failure, or the decoded listing of items) and
 * does the part that is deterministic, the loop that maps upstream items to
 * posts inside a `try` whose `catch` returns the empty list.
 */
module Scrapers {
  import opened Js

  // ---------------------------------------------------------------------
  // Common data model
  // ---------------------------------------------------------------------

  /** Upvotes, stars or reactions, and comment counts, each independently undefined, null or a number. */
  datatype Engagement = Engagement(likes: Number, comments: Number, shares: Number)

  /**
   * One normalised post. `url` is optional because the GitHub and Dev.to
   * adapters copy the upstream link as it is, missing or not.
   */
  datatype ScrapedPost = ScrapedPost(
    platform: string,
    title: string,
    content: string,
    url: Option<string>,
    author: Option<string>,
    timestamp: Option<string>,
    engagement: Option<Engagement>)

  /** The outcome of one adapter for one query. */
  datatype ScrapeResult = ScrapeResult(query: string, platform: string, posts: seq<ScrapedPost>, error: Option<string>)

  // ---------------------------------------------------------------------
  // Upstream responses
  // ---------------------------------------------------------------------

  /**
   * The value found where an adapter expects its list of items.
   * `Absent` is a missing or falsy value, which `|| []` replaces by the empty
   * list; `NotIterable` is a truthy value that `for ... of` rejects (an object,
   * a number, `true`); `Text` is a string, whose characters `for ... of`
   * visits one by one; `Array` is a JSON array, whose `None` entries are
   * `null` elements.
   */
  datatype Listing<T> = Absent | NotIterable | Text(chars: string) | Array(entries: seq<Option<T>>)

  /** What the HTTP request produced: a rejection (network error, timeout, non-2xx status) or a body. */
  datatype Response<T> = FetchFailed(reason: string) | Received(listing: Listing<T>)

  /**
   * The elements `for (const x of listing || [])` visits, or `None` when the
   * loop throws before the first element. A character of a string has none
   * of the item's properties, so it is visited as `Some(blank)`.
   */
  function ForOf<T>(listing: Listing<T>, blank: T): (r: Option<seq<Option<T>>>)
    ensures r.None? <==> listing.NotIterable?
    ensures listing.Absent? ==> r == Some([])
    ensures listing.Array? ==> r == Some(listing.entries)
    ensures listing.Text? ==>
      (r.Some? && |r.value| == |listing.chars| && forall i :: 0 <= i < |r.value| ==> r.value[i] == Some(blank))
  {
    match listing
    case Absent => Some([])
    case NotIterable => None
    case Text(s) => Some(seq(|s|, _ => Some(blank)))
    case Array(entries) => Some(entries)
  }

  /** `Array.isArray(listing) ? listing : []`. */
  function ArrayOrEmpty<T>(listing: Listing<T>): seq<Option<T>>
  {
    match listing
    case Array(entries) => entries
    case _ => []
  }

  /** The items an adapter iterates over, or `None` when fetching or iterating throws. */
  function Visit<T>(response: Response<T>, blank: T): (r: Option<seq<Option<T>>>)
    ensures r.None? <==> response.FetchFailed? || response.listing.NotIterable?
    ensures response.Received? ==> r == ForOf(response.listing, blank)
  {
    match response
    case FetchFailed(_) => None
    case Received(listing) => ForOf(listing, blank)
  }

  /** The same for the Dev.to adapter, which guards its loop with `Array.isArray`. */
  function VisitArray<T>(response: Response<T>): (r: Option<seq<Option<T>>>)
    ensures r.None? <==> response.FetchFailed?
    ensures response.Received? && response.listing.Array? ==> r == Some(response.listing.entries)
    ensures response.Received? && !response.listing.Array? ==> r == Some([])
  {
    match response
    case FetchFailed(_) => None
    case Received(listing) => Some(ArrayOrEmpty(listing))
  }

  // ---------------------------------------------------------------------
  // The mapping loop shared by the four adapters
  // ---------------------------------------------------------------------

  /**
   * Mapping every entry with `normalize`, where `None` stands for an
   * exception raised while building the post: either every entry maps and
   * the posts come out one per entry, in order, or the whole batch throws.
   */
  function Batch<E>(entries: seq<E>, normalize: E -> Option<ScrapedPost>): (r: Option<seq<ScrapedPost>>)
    ensures r.Some? <==> forall i :: 0 <= i < |entries| ==> normalize(entries[i]).Some?
    ensures r.Some? ==> |r.value| == |entries|
    ensures r.Some? ==> forall i :: 0 <= i < |entries| ==> r.value[i] == normalize(entries[i]).value
  {
    if entries == [] then Some([])
    else match normalize(entries[0])
      case None => None
      case Some(post) =>
        match Batch(entries[1..], normalize)
        case None => None
        case Some(rest) => Some([post] + rest)
  }

  /** An adapter's `try`/`catch`: any exception, from fetching or from mapping, yields `[]`. */
  function RunAdapter<E>(visited: Option<seq<E>>, normalize: E -> Option<ScrapedPost>): (posts: seq<ScrapedPost>)
    ensures visited.None? ==> posts == []
    ensures visited.Some? && (forall i :: 0 <= i < |visited.value| ==> normalize(visited.value[i]).Some?) ==>
      |posts| == |visited.value| &&
      forall i :: 0 <= i < |posts| ==> posts[i] == normalize(visited.value[i]).value
    ensures visited.Some? && (exists i :: 0 <= i < |visited.value| && normalize(visited.value[i]).None?) ==>
      posts == []
  {
    match visited
    case None => []
    case Some(entries) =>
      match Batch(entries, normalize)
      case None => []
      case Some(posts) => posts
  }

  /**
   * The body of an adapter's `for` loop: push one post per entry; an entry
   * that throws abandons the partly built list and the adapter returns `[]`.
   */
  method CollectPosts<E>(entries: seq<E>, normalize: E -> Option<ScrapedPost>) returns (posts: seq<ScrapedPost>)
    ensures posts == RunAdapter(Some(entries), normalize)
  {
    posts := [];
    var i := 0;
    while i < |entries|
      invariant 0 <= i <= |entries|
      invariant |posts| == i
      invariant forall k :: 0 <= k < i ==> normalize(entries[k]).Some? && posts[k] == normalize(entries[k]).value
    {
      var post := normalize(entries[i]);
      if post.None? {
        return [];
      }
      posts := posts + [post.value];
      i := i + 1;
    }
  }

  // ---------------------------------------------------------------------
  // Field rules shared by the adapters
  // ---------------------------------------------------------------------

  const Untitled := "Untitled"

  /** `upstream || 'Untitled'`: the upstream title when it is non-empty, the placeholder otherwise. */
  predicate TitleFrom(title: string, upstream: Option<string>)
  {
    title != "" && title == FirstTruthy([upstream], Untitled)
  }

  /** Engagement is always present, carries the two upstream counts unchanged and never `shares`. */
  predicate EngagementFrom(e: Option<Engagement>, likes: Number, comments: Number)
  {
    e == Some(Engagement(likes, comments, Undefined))
  }

  // ---------------------------------------------------------------------
  // Reddit
  // ---------------------------------------------------------------------

  const RedditLabel := "Reddit"
  const RedditBase := "https://www.reddit.com"

  /** The `data` object of one child of a Reddit listing. */
  datatype RedditPost = RedditPost(
    title: Option<string>,
    selftext: Option<string>,
    permalink: Option<string>,
    author: Option<string>,
    createdUtc: Number,
    ups: Number,
    numComments: Number)

  /** One element of `data.children`; `data` is the post it wraps. */
  datatype RedditChild = RedditChild(data: Option<RedditPost>)

  /** A JavaScript `Date` holds at most 8.64e15 milliseconds either side of the epoch. */
  const MaxTimeValue := 8_640_000_000_000_000

  predicate ValidTimeValue(ms: int)
  {
    -MaxTimeValue <= ms <= MaxTimeValue
  }

  /**
   * `new Date(created_utc * 1000).toISOString()`. A missing `created_utc`
   * gives NaN and a value out of range an invalid date; `toISOString` then
   * throws (`None`). A `null` one multiplies to 0, the epoch. `iso` is the
   * formatting of a valid time value in milliseconds, which is not modelled.
   */
  function RedditTimestamp(createdUtc: Number, iso: int -> string): (r: Option<string>)
    ensures createdUtc.Undefined? ==> r.None?
    ensures createdUtc.Null? ==> r == Some(iso(0))
    ensures createdUtc.Num? ==> (r.Some? <==> ValidTimeValue(createdUtc.value * 1000))
    ensures createdUtc.Num? && r.Some? ==> r.value == iso(createdUtc.value * 1000)
  {
    match createdUtc
    case Undefined => None
    case Null => Some(iso(0))
    case Num(seconds) =>
      var ms := seconds * 1000;
      if ValidTimeValue(ms) then Some(iso(ms)) else None
  }

  /** The child the loop can map without throwing. */
  predicate RedditChildMaps(child: Option<RedditChild>, iso: int -> string)
  {
    child.Some? && child.value.data.Some? &&
    RedditTimestamp(child.value.data.value.createdUtc, iso).Some?
  }

  /** What the Reddit adapter promises of the post it builds from `d`. */
  ghost predicate RedditPostOf(d: RedditPost, p: ScrapedPost, iso: int -> string)
  {
    && p.platform == RedditLabel
    && TitleFrom(p.title, d.title)
    && p.content == FirstTruthy([d.selftext, d.title], "")
    && p.url == Some(RedditBase + Interpolate(d.permalink))
    && p.author == d.author
    && p.timestamp.Some? && p.timestamp == RedditTimestamp(d.createdUtc, iso)
    && EngagementFrom(p.engagement, d.ups, d.numComments)
  }

  /** One iteration of the Reddit loop; `None` when it throws. */
  function RedditEntry(child: Option<RedditChild>, iso: int -> string): (r: Option<ScrapedPost>)
    ensures r.Some? <==> RedditChildMaps(child, iso)
    ensures r.Some? ==> RedditPostOf(child.value.data.value, r.value, iso)
  {
    match child
    case None => None
    case Some(RedditChild(data)) =>
      match data
      case None => None
      case Some(post) =>
        match RedditTimestamp(post.createdUtc, iso)
        case None => None
        case Some(timestamp) =>
          Some(ScrapedPost(
            RedditLabel,
            OrElse([post.title], Untitled),
            OrElse([post.selftext, post.title], ""),
            Some(RedditBase + Interpolate(post.permalink)),
            post.author,
            Some(timestamp),
            Some(Engagement(post.ups, post.numComments, Undefined))))
  }

  function RedditNormalizer(iso: int -> string): Option<RedditChild> -> Option<ScrapedPost>
  {
    child => RedditEntry(child, iso)
  }

  const BlankChild := RedditChild(None)

  /** The posts `scrapeReddit` returns for a response. */
  function RedditPosts(response: Response<RedditChild>, iso: int -> string): seq<ScrapedPost>
  {
    RunAdapter(Visit(response, BlankChild), RedditNormalizer(iso))
  }

  method ScrapeReddit(response: Response<RedditChild>, iso: int -> string) returns (posts: seq<ScrapedPost>)
    ensures posts == RedditPosts(response, iso)
  {
    var children := Visit(response, BlankChild);
    if children.None? {
      posts := [];
    } else {
      posts := CollectPosts(children.value, RedditNormalizer(iso));
    }
  }

  /**
   * Either every child maps, and there is one post per child in order with
   * the Reddit field rules, or the adapter returns `[]`.
   */
  lemma RedditPostsSpec(response: Response<RedditChild>, iso: int -> string)
    ensures var posts := RedditPosts(response, iso);
            var children := Visit(response, BlankChild);
            if children.Some? && forall i :: 0 <= i < |children.value| ==> RedditChildMaps(children.value[i], iso)
            then |posts| == |children.value| &&
                 forall i :: 0 <= i < |posts| ==> RedditPostOf(children.value[i].value.data.value, posts[i], iso)
            else posts == []
  {
  }

  // ---------------------------------------------------------------------
  // Hacker News
  // ---------------------------------------------------------------------

  const HackerNewsLabel := "Hacker News"
  const HackerNewsItemPrefix := "https://news.ycombinator.com/item?id="

  /** One element of `hits` in an Algolia search response. */
  datatype HnHit = HnHit(
    title: Option<string>,
    storyText: Option<string>,
    commentText: Option<string>,
    url: Option<string>,
    objectId: Option<string>,
    author: Option<string>,
    createdAt: Option<string>,
    points: Number,
    numComments: Number)

  const BlankHit := HnHit(None, None, None, None, None, None, None, Undefined, Undefined)

  /** What the Hacker News adapter promises of the post it builds from `hit`. */
  ghost predicate HackerNewsPostOf(hit: HnHit, p: ScrapedPost)
  {
    && p.platform == HackerNewsLabel
    && TitleFrom(p.title, hit.title)
    && p.content == FirstTruthy([hit.storyText, hit.commentText, hit.title], "")
    && p.url == Some(FirstTruthy([hit.url], HackerNewsItemPrefix + Interpolate(hit.objectId)))
    && p.author == hit.author
    && p.timestamp == hit.createdAt
    && EngagementFrom(p.engagement, hit.points, hit.numComments)
  }

  /** One iteration of the Hacker News loop; only a `null` hit throws. */
  function HackerNewsEntry(entry: Option<HnHit>): (r: Option<ScrapedPost>)
    ensures r.Some? <==> entry.Some?
    ensures r.Some? ==> HackerNewsPostOf(entry.value, r.value)
  {
    match entry
    case None => None
    case Some(hit) =>
      Some(ScrapedPost(
        HackerNewsLabel,
        OrElse([hit.title], Untitled),
        OrElse([hit.storyText, hit.commentText, hit.title], ""),
        Some(OrElse([hit.url], HackerNewsItemPrefix + Interpolate(hit.objectId))),
        hit.author,
        hit.createdAt,
        Some(Engagement(hit.points, hit.numComments, Undefined))))
  }

  /** The posts `scrapeHackerNews` returns for a response. */
  function HackerNewsPosts(response: Response<HnHit>): seq<ScrapedPost>
  {
    RunAdapter(Visit(response, BlankHit), HackerNewsEntry)
  }

  method ScrapeHackerNews(response: Response<HnHit>) returns (posts: seq<ScrapedPost>)
    ensures posts == HackerNewsPosts(response)
  {
    var hits := Visit(response, BlankHit);
    if hits.None? {
      posts := [];
    } else {
      posts := CollectPosts(hits.value, HackerNewsEntry);
    }
  }

  /** Either no hit is `null` and there is one post per hit in order, or the adapter returns `[]`. */
  lemma HackerNewsPostsSpec(response: Response<HnHit>)
    ensures var posts := HackerNewsPosts(response);
            var hits := Visit(response, BlankHit);
            if hits.Some? && forall i :: 0 <= i < |hits.value| ==> hits.value[i].Some?
            then |posts| == |hits.value| &&
                 forall i :: 0 <= i < |posts| ==> HackerNewsPostOf(hits.value[i].value, posts[i])
            else posts == []
  {
  }

  // ---------------------------------------------------------------------
  // GitHub
  // ---------------------------------------------------------------------

  const GitHubLabel := "GitHub"

  datatype GitHubOwner = GitHubOwner(login: Option<string>)

  /** One element of `items` in a repository search response. */
  datatype GitHubRepo = GitHubRepo(
    fullName: Option<string>,
    description: Option<string>,
    htmlUrl: Option<string>,
    owner: Option<GitHubOwner>,
    createdAt: Option<string>,
    stargazersCount: Number,
    openIssuesCount: Number)

  const BlankRepo := GitHubRepo(None, None, None, None, None, Undefined, Undefined)

  /** `repo.owner?.login`. */
  function OwnerLogin(owner: Option<GitHubOwner>): Option<string>
  {
    match owner
    case None => None
    case Some(o) => o.login
  }

  /** What the GitHub adapter promises of the post it builds from `repo`. */
  ghost predicate GitHubPostOf(repo: GitHubRepo, p: ScrapedPost)
  {
    && p.platform == GitHubLabel
    && TitleFrom(p.title, repo.fullName)
    && p.content == FirstTruthy([repo.description], "")
    && p.url == repo.htmlUrl
    && p.author == OwnerLogin(repo.owner)
    && p.timestamp == repo.createdAt
    && EngagementFrom(p.engagement, repo.stargazersCount, repo.openIssuesCount)
  }

  /** One iteration of the GitHub loop; only a `null` item throws. */
  function GitHubEntry(entry: Option<GitHubRepo>): (r: Option<ScrapedPost>)
    ensures r.Some? <==> entry.Some?
    ensures r.Some? ==> GitHubPostOf(entry.value, r.value)
  {
    match entry
    case None => None
    case Some(repo) =>
      Some(ScrapedPost(
        GitHubLabel,
        OrElse([repo.fullName], Untitled),
        OrElse([repo.description], ""),
        repo.htmlUrl,
        OwnerLogin(repo.owner),
        repo.createdAt,
        Some(Engagement(repo.stargazersCount, repo.openIssuesCount, Undefined))))
  }

  /** The posts `scrapeGitHub` returns for a response. */
  function GitHubPosts(response: Response<GitHubRepo>): seq<ScrapedPost>
  {
    RunAdapter(Visit(response, BlankRepo), GitHubEntry)
  }

  method ScrapeGitHub(response: Response<GitHubRepo>) returns (posts: seq<ScrapedPost>)
    ensures posts == GitHubPosts(response)
  {
    var items := Visit(response, BlankRepo);
    if items.None? {
      posts := [];
    } else {
      posts := CollectPosts(items.value, GitHubEntry);
    }
  }

  /** Either no item is `null` and there is one post per item in order, or the adapter returns `[]`. */
  lemma GitHubPostsSpec(response: Response<GitHubRepo>)
    ensures var posts := GitHubPosts(response);
            var items := Visit(response, BlankRepo);
            if items.Some? && forall i :: 0 <= i < |items.value| ==> items.value[i].Some?
            then |posts| == |items.value| &&
                 forall i :: 0 <= i < |posts| ==> GitHubPostOf(items.value[i].value, posts[i])
            else posts == []
  {
  }

  // ---------------------------------------------------------------------
  // Dev.to
  // ---------------------------------------------------------------------

  const DevToLabel := "Dev.to"

  datatype DevToUser = DevToUser(username: Option<string>)

  /** One article of the Dev.to articles endpoint. */
  datatype DevToArticle = DevToArticle(
    title: Option<string>,
    description: Option<string>,
    url: Option<string>,
    user: Option<DevToUser>,
    publishedAt: Option<string>,
    positiveReactionsCount: Number,
    commentsCount: Number)

  /** `article.user?.username`. */
  function Username(user: Option<DevToUser>): Option<string>
  {
    match user
    case None => None
    case Some(u) => u.username
  }

  /** What the Dev.to adapter promises of the post it builds from `article`. */
  ghost predicate DevToPostOf(article: DevToArticle, p: ScrapedPost)
  {
    && p.platform == DevToLabel
    && TitleFrom(p.title, article.title)
    && p.content == FirstTruthy([article.description], "")
    && p.url == article.url
    && p.author == Username(article.user)
    && p.timestamp == article.publishedAt
    && EngagementFrom(p.engagement, article.positiveReactionsCount, article.commentsCount)
  }

  /** One iteration of the Dev.to loop; only a `null` article throws. */
  function DevToEntry(entry: Option<DevToArticle>): (r: Option<ScrapedPost>)
    ensures r.Some? <==> entry.Some?
    ensures r.Some? ==> DevToPostOf(entry.value, r.value)
  {
    match entry
    case None => None
    case Some(article) =>
      Some(ScrapedPost(
        DevToLabel,
        OrElse([article.title], Untitled),
        OrElse([article.description], ""),
        article.url,
        Username(article.user),
        article.publishedAt,
        Some(Engagement(article.positiveReactionsCount, article.commentsCount, Undefined))))
  }

  /** The posts `scrapeDevTo` returns for a response. */
  function DevToPosts(response: Response<DevToArticle>): seq<ScrapedPost>
  {
    RunAdapter(VisitArray(response), DevToEntry)
  }

  method ScrapeDevTo(response: Response<DevToArticle>) returns (posts: seq<ScrapedPost>)
    ensures posts == DevToPosts(response)
  {
    var articles := VisitArray(response);
    if articles.None? {
      posts := [];
    } else {
      posts := CollectPosts(articles.value, DevToEntry);
    }
  }

  /**
   * Only a JSON array yields posts; then either no article is `null` and
   * there is one post per article in order, or the adapter returns `[]`.
   */
  lemma DevToPostsSpec(response: Response<DevToArticle>)
    ensures var posts := DevToPosts(response);
            if response.Received? && response.listing.Array? &&
               forall i :: 0 <= i < |response.listing.entries| ==> response.listing.entries[i].Some?
            then |posts| == |response.listing.entries| &&
                 forall i :: 0 <= i < |posts| ==> DevToPostOf(response.listing.entries[i].value, posts[i])
            else posts == []
  {
  }

  // ---------------------------------------------------------------------
  // Product Hunt
  // ---------------------------------------------------------------------

  /** A placeholder adapter: it returns no posts for any topic and is not among the declared scrapers. */
  function ScrapeProductHunt(topic: string): (posts: seq<ScrapedPost>)
    ensures posts == []
  {
    []
  }

  // ---------------------------------------------------------------------
  // Failure containment shared by all adapters
  // ---------------------------------------------------------------------

  /**
   * A failed request or a missing or non-iterable list of items yields no
   * posts on every platform; Reddit and Dev.to also return nothing unless the
   * list is a JSON array (a string's characters have no `data` to read).
   */
  lemma NoListingNoPosts(
    reddit: Response<RedditChild>, hackerNews: Response<HnHit>,
    gitHub: Response<GitHubRepo>, devTo: Response<DevToArticle>, iso: int -> string)
    ensures reddit.FetchFailed? || !reddit.listing.Array? ==> RedditPosts(reddit, iso) == []
    ensures hackerNews.FetchFailed? || hackerNews.listing.Absent? || hackerNews.listing.NotIterable? ==> HackerNewsPosts(hackerNews) == []
    ensures gitHub.FetchFailed? || gitHub.listing.Absent? || gitHub.listing.NotIterable? ==> GitHubPosts(gitHub) == []
    ensures devTo.FetchFailed? || !devTo.listing.Array? ==> DevToPosts(devTo) == []
  {
  }

  /** The post built from a hit or repository that has none of its properties. */
  const BlankPost := ScrapedPost("", Untitled, "", None, None, None, Some(Engagement(Undefined, Undefined, Undefined)))

  /**
   * A string where the hit or item array was expected: `for...of` walks its
   * characters, and every character reads as an object with no properties, so
   * there is one post per character, each titled "Untitled" with empty
   * content and undefined counts. Hacker News links each one to the item
   * page of id "undefined"; GitHub gives it no link. Reddit and Dev.to
   * return no posts for a string.
   */
  lemma StringListingPosts(s: string, iso: int -> string)
    ensures var posts := HackerNewsPosts(Received(Text(s)));
      |posts| == |s| &&
      forall i :: 0 <= i < |posts| ==>
        posts[i] == BlankPost.(platform := HackerNewsLabel, url := Some(HackerNewsItemPrefix + "undefined"))
    ensures var posts := GitHubPosts(Received(Text(s)));
      |posts| == |s| &&
      forall i :: 0 <= i < |posts| ==> posts[i] == BlankPost.(platform := GitHubLabel)
    ensures RedditPosts(Received(Text(s)), iso) == []
    ensures DevToPosts(Received(Text(s))) == []
  {
  }

  // ---------------------------------------------------------------------
  // Orchestrator
  // ---------------------------------------------------------------------

  /** The declared scrapers, in declaration order. */
  const ScraperNames: seq<string> := [RedditLabel, HackerNewsLabel, GitHubLabel, DevToLabel]

  /** A thrown value: an `Error` carries a message, anything else does not. */
  datatype Thrown = ErrorInstance(message: string) | NonErrorValue

  /** How one scraper call ended. */
  datatype Outcome = Returned(posts: seq<ScrapedPost>) | Threw(thrown: Thrown)

  /** One entry of `Promise.allSettled`. */
  datatype Settled<T> = Fulfilled(value: T) | Rejected(reason: Thrown)

  const UnknownError := "Unknown error"

  function ErrorMessage(thrown: Thrown): (r: string)
    ensures thrown.ErrorInstance? ==> r == thrown.message
    ensures thrown.NonErrorValue? ==> r == UnknownError
  {
    match thrown
    case ErrorInstance(message) => message
    case NonErrorValue => UnknownError
  }

  /**
   * The wrapper around each scraper call: the query and platform name are
   * echoed; a return gives its posts and no error, a throw gives no posts and
   * the thrown message.
   */
  function Settle(topic: string, name: string, outcome: Outcome): (r: ScrapeResult)
    ensures r.query == topic && r.platform == name
    ensures r.error.Some? <==> outcome.Threw?
    ensures outcome.Returned? ==> r.posts == outcome.posts
    ensures outcome.Threw? ==> r.posts == [] && r.error == Some(ErrorMessage(outcome.thrown))
  {
    match outcome
    case Returned(posts) => ScrapeResult(topic, name, posts, None)
    case Threw(thrown) => ScrapeResult(topic, name, [], Some(ErrorMessage(thrown)))
  }

  /** The values of the fulfilled entries, in order. */
  function FulfilledValues<T>(settled: seq<Settled<T>>): (r: seq<T>)
    ensures |r| <= |settled|
    ensures forall x :: x in r ==> Fulfilled(x) in settled
  {
    if settled == [] then []
    else
      var init := FulfilledValues(settled[..|settled| - 1]);
      match settled[|settled| - 1]
      case Fulfilled(v) => init + [v]
      case Rejected(_) => init
  }

  /** When nothing was rejected, the filter keeps every entry, in order. */
  lemma {:induction false} FulfilledValuesAll<T>(settled: seq<Settled<T>>)
    requires forall i :: 0 <= i < |settled| ==> settled[i].Fulfilled?
    ensures |FulfilledValues(settled)| == |settled|
    ensures forall i :: 0 <= i < |settled| ==> FulfilledValues(settled)[i] == settled[i].value
  {
    if settled != [] {
      FulfilledValuesAll(settled[..|settled| - 1]);
    }
  }

  /** The loop over the settled entries that pushes each fulfilled value. */
  method KeepFulfilled<T>(settled: seq<Settled<T>>) returns (results: seq<T>)
    ensures results == FulfilledValues(settled)
  {
    results := [];
    var i := 0;
    while i < |settled|
      invariant 0 <= i <= |settled|
      invariant results == FulfilledValues(settled[..i])
    {
      assert settled[..i + 1][..i] == settled[..i];
      if settled[i].Fulfilled? {
        results := results + [settled[i].value];
      }
      i := i + 1;
    }
    assert settled[..i] == settled;
  }

  /** One result per declared scraper, in declaration order, for the given call outcomes. */
  function SettledResults(topic: string, outcomes: seq<Outcome>): (r: seq<ScrapeResult>)
    requires |outcomes| == |ScraperNames|
    ensures |r| == |ScraperNames|
    ensures forall i :: 0 <= i < |r| ==> r[i].query == topic && r[i].platform == ScraperNames[i]
    ensures forall i :: 0 <= i < |r| ==> (r[i].error.Some? <==> outcomes[i].Threw?)
    ensures forall i :: 0 <= i < |r| ==> r[i].posts == (if outcomes[i].Returned? then outcomes[i].posts else [])
  {
    seq(|outcomes|, i requires 0 <= i < |outcomes| => Settle(topic, ScraperNames[i], outcomes[i]))
  }

  /**
   * The fan-out and fan-in, given how each scraper call ended: every call is
   * wrapped, the wrappers settle (they never reject), and the loop keeps the
   * fulfilled values.
   */
  method Aggregate(topic: string, outcomes: seq<Outcome>) returns (results: seq<ScrapeResult>)
    requires |outcomes| == |ScraperNames|
    ensures results == SettledResults(topic, outcomes)
  {
    var settled := seq(|outcomes|, i requires 0 <= i < |outcomes| =>
      Fulfilled(Settle(topic, ScraperNames[i], outcomes[i])));
    results := KeepFulfilled(settled);
    FulfilledValuesAll(settled);
  }

  /** The responses the four scrapers receive for one topic. */
  datatype Upstream = Upstream(
    reddit: Response<RedditChild>,
    hackerNews: Response<HnHit>,
    gitHub: Response<GitHubRepo>,
    devTo: Response<DevToArticle>)

  /** How the four declared scrapers end: each catches its own failures and returns. */
  function AdapterOutcomes(upstream: Upstream, iso: int -> string): seq<Outcome>
  {
    [ Returned(RedditPosts(upstream.reddit, iso)),
      Returned(HackerNewsPosts(upstream.hackerNews)),
      Returned(GitHubPosts(upstream.gitHub)),
      Returned(DevToPosts(upstream.devTo)) ]
  }

  /**
   * What every adapter guarantees of each post it returns: its own platform
   * label, a non-empty title, and engagement counts without `shares`.
   */
  predicate LabelledPost(p: ScrapedPost, platform: string)
  {
    p.platform == platform && p.title != "" && p.engagement.Some? && p.engagement.value.shares.Undefined?
  }

  lemma AdapterPostsLabelled(upstream: Upstream, iso: int -> string)
    ensures forall p :: p in RedditPosts(upstream.reddit, iso) ==> LabelledPost(p, RedditLabel)
    ensures forall p :: p in HackerNewsPosts(upstream.hackerNews) ==> LabelledPost(p, HackerNewsLabel)
    ensures forall p :: p in GitHubPosts(upstream.gitHub) ==> LabelledPost(p, GitHubLabel)
    ensures forall p :: p in DevToPosts(upstream.devTo) ==> LabelledPost(p, DevToLabel)
  {
  }

  /**
   * What the declared scrapers produce together: four results, none with an
   * error (every adapter catches its own failures), each carrying its
   * adapter's posts, which are labelled with the result's platform.
   */
  lemma AdapterResults(topic: string, upstream: Upstream, iso: int -> string)
    ensures var results := SettledResults(topic, AdapterOutcomes(upstream, iso));
      && |results| == 4
      && (forall i :: 0 <= i < 4 ==> results[i].query == topic && results[i].error == None)
      && results[0].platform == RedditLabel && results[0].posts == RedditPosts(upstream.reddit, iso)
      && results[1].platform == HackerNewsLabel && results[1].posts == HackerNewsPosts(upstream.hackerNews)
      && results[2].platform == GitHubLabel && results[2].posts == GitHubPosts(upstream.gitHub)
      && results[3].platform == DevToLabel && results[3].posts == DevToPosts(upstream.devTo)
      && (forall i, p :: 0 <= i < 4 && p in results[i].posts ==> LabelledPost(p, results[i].platform))
  {
  }

  /**
   * `scrapeAllPlatforms`: the four adapters run in declaration order and
   * their results are assembled by the settle-all join.
   */
  method ScrapeAllPlatforms(topic: string, upstream: Upstream, iso: int -> string) returns (results: seq<ScrapeResult>)
    ensures results == SettledResults(topic, AdapterOutcomes(upstream, iso))
  {
    var redditPosts := ScrapeReddit(upstream.reddit, iso);
    var hackerNewsPosts := ScrapeHackerNews(upstream.hackerNews);
    var gitHubPosts := ScrapeGitHub(upstream.gitHub);
    var devToPosts := ScrapeDevTo(upstream.devTo);
    var outcomes := [Returned(redditPosts), Returned(hackerNewsPosts), Returned(gitHubPosts), Returned(devToPosts)];
    results := Aggregate(topic, outcomes);
  }
}
