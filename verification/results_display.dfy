/**
 * The values the results view computes from a list of scrape results: the
 * header count, one section per platform with its error banner or "no
 * results" notice, and one card per post with its excerpt, time label and
 * engagement stats. Markup and styling are not modelled.
 */
module ResultsDisplay {
  import opened Js
  import opened Scrapers

  const ExcerptLimit := 200
  const Ellipsis := "..."
  const UnknownTime := "Unknown time"

  /**
   * The paragraph under a post title: absent for empty content, the content
   * itself up to 200 characters, otherwise its first 200 characters and "...".
   */
  function Excerpt(content: string): (r: Option<string>)
    ensures r.None? <==> content == ""
    ensures r.Some? ==> |r.value| <= ExcerptLimit + |Ellipsis|
    ensures r.Some? && |content| <= ExcerptLimit ==> r.value == content
    ensures r.Some? && |content| > ExcerptLimit ==>
      |r.value| == ExcerptLimit + |Ellipsis| &&
      r.value[..ExcerptLimit] == content[..ExcerptLimit] &&
      r.value[ExcerptLimit..] == Ellipsis
  {
    if content == "" then None
    else if |content| > ExcerptLimit then Some(content[..ExcerptLimit] + Ellipsis)
    else Some(content)
  }

  /** The time shown on a card: a distance to now computed from the timestamp, or a fixed text. */
  datatype TimeLabel = DistanceToNow(timestamp: string) | Fixed(text: string)

  function TimeAgo(timestamp: Option<string>): (r: TimeLabel)
    ensures r == Fixed(UnknownTime) <==> !Truthy(timestamp)
    ensures r.DistanceToNow? ==> Some(r.timestamp) == timestamp
  {
    if Truthy(timestamp) then DistanceToNow(timestamp.value) else Fixed(UnknownTime)
  }

  /**
   * One engagement stat with the value it prints; a `null` count is shown
   * as a stat with no number after the icon.
   */
  datatype Stat = Likes(count: Number) | Comments(count: Number) | Shares(count: Number)

  /** A stat that is shown for `e` is a field of `e` that is not `undefined`, with its value. */
  predicate StatOf(e: Engagement, s: Stat)
  {
    match s
    case Likes(n) => e.likes == n && n != Undefined
    case Comments(n) => e.comments == n && n != Undefined
    case Shares(n) => e.shares == n && n != Undefined
  }

  /** The position of a stat on the card: likes, then comments, then shares. */
  function Rank(s: Stat): nat
  {
    match s
    case Likes(_) => 0
    case Comments(_) => 1
    case Shares(_) => 2
  }

  /** How many of the three fields are not `undefined`. */
  function DefinedFields(e: Engagement): nat
  {
    (if e.likes != Undefined then 1 else 0) +
    (if e.comments != Undefined then 1 else 0) +
    (if e.shares != Undefined then 1 else 0)
  }

  /**
   * The engagement stats of a card: one per field that is not `undefined`,
   * each with its field's value, in the order likes, comments, shares.
   */
  function Stats(e: Engagement): (r: seq<Stat>)
    ensures forall s :: s in r ==> StatOf(e, s)
    ensures e.likes != Undefined ==> Likes(e.likes) in r
    ensures e.comments != Undefined ==> Comments(e.comments) in r
    ensures e.shares != Undefined ==> Shares(e.shares) in r
    ensures |r| == DefinedFields(e)
    ensures forall i, j :: 0 <= i < j < |r| ==> Rank(r[i]) < Rank(r[j])
  {
    (if e.likes != Undefined then [Likes(e.likes)] else []) +
    (if e.comments != Undefined then [Comments(e.comments)] else []) +
    (if e.shares != Undefined then [Shares(e.shares)] else [])
  }

  /** What a post card shows; `stats` is absent when the post has no engagement record at all. */
  datatype Card = Card(
    badge: string,
    byline: Option<string>,
    time: TimeLabel,
    title: string,
    link: Option<string>,
    excerpt: Option<string>,
    stats: Option<seq<Stat>>)

  function PostCard(post: ScrapedPost): (c: Card)
    ensures c.badge == post.platform && c.title == post.title && c.link == post.url
    ensures c.byline.Some? <==> Truthy(post.author)
    ensures c.byline.Some? ==> c.byline == post.author
    ensures c.time == TimeAgo(post.timestamp)
    ensures c.excerpt == Excerpt(post.content)
    ensures c.stats.Some? <==> post.engagement.Some?
    ensures c.stats.Some? ==> c.stats.value == Stats(post.engagement.value)
  {
    Card(
      post.platform,
      if Truthy(post.author) then post.author else None,
      TimeAgo(post.timestamp),
      post.title,
      post.url,
      Excerpt(post.content),
      match post.engagement
      case None => None
      case Some(e) => Some(Stats(e)))
  }

  /** One platform section: heading, post count, error banner, "no results" notice, cards. */
  datatype Section = Section(
    platform: string,
    count: nat,
    errorBanner: Option<string>,
    noResults: bool,
    cards: seq<Card>)

  /**
   * The banner shows exactly when `error` is a non-empty message, the notice
   * exactly when there are no posts and no such message; never both.
   */
  function PlatformSection(result: ScrapeResult): (s: Section)
    ensures s.platform == result.platform && s.count == |result.posts|
    ensures s.errorBanner.Some? <==> Truthy(result.error)
    ensures s.errorBanner.Some? ==> s.errorBanner == result.error
    ensures s.noResults <==> result.posts == [] && !Truthy(result.error)
    ensures !(s.noResults && s.errorBanner.Some?)
    ensures |s.cards| == |result.posts|
    ensures forall i :: 0 <= i < |s.cards| ==> s.cards[i] == PostCard(result.posts[i])
  {
    Section(
      result.platform,
      |result.posts|,
      if Truthy(result.error) then result.error else None,
      |result.posts| == 0 && !Truthy(result.error),
      seq(|result.posts|, i requires 0 <= i < |result.posts| => PostCard(result.posts[i])))
  }

  /**
   * `results.reduce((acc, result) => acc + result.posts.length, 0)`: every
   * platform's posts are counted, and the total is zero exactly when every
   * platform returned none.
   */
  function TotalPosts(results: seq<ScrapeResult>): (r: nat)
    ensures forall i :: 0 <= i < |results| ==> |results[i].posts| <= r
    ensures r == 0 <==> forall i :: 0 <= i < |results| ==> results[i].posts == []
  {
    if results == [] then 0
    else
      var init := results[..|results| - 1];
      assert forall i :: 0 <= i < |init| ==> init[i] == results[i];
      TotalPosts(init) + |results[|results| - 1].posts|
  }

  /** The total is additive over concatenation. */
  lemma {:induction false} TotalPostsAppend(a: seq<ScrapeResult>, b: seq<ScrapeResult>)
    ensures TotalPosts(a + b) == TotalPosts(a) + TotalPosts(b)
  {
    if b != [] {
      var init := b[..|b| - 1];
      assert (a + b)[..|a + b| - 1] == a + init;
      TotalPostsAppend(a, init);
    } else {
      assert a + b == a;
    }
  }

  datatype Header = Header(totalPosts: nat, platforms: nat)

  datatype Page = Page(header: Header, sections: seq<Section>)

  /** The whole view: nothing for an empty result list, otherwise the header and one section per result. */
  function Render(results: seq<ScrapeResult>): (page: Option<Page>)
    ensures page.None? <==> results == []
    ensures page.Some? ==> page.value.header == Header(TotalPosts(results), |results|)
    ensures page.Some? ==> |page.value.sections| == |results|
    ensures page.Some? ==> forall i :: 0 <= i < |results| ==> page.value.sections[i] == PlatformSection(results[i])
  {
    if |results| == 0 then None
    else Some(Page(
      Header(TotalPosts(results), |results|),
      seq(|results|, i requires 0 <= i < |results| => PlatformSection(results[i]))))
  }

  /** The cards of a section whose posts are labelled as the adapters label them. */
  lemma CardsOfLabelledPosts(result: ScrapeResult)
    requires forall p :: p in result.posts ==> LabelledPost(p, result.platform)
    ensures forall c :: c in PlatformSection(result).cards ==>
      c.badge == result.platform && c.title != "" && c.stats.Some? && forall n :: Shares(n) !in c.stats.value
  {
    var cards := PlatformSection(result).cards;
    forall c | c in cards
      ensures c.badge == result.platform && c.title != "" && c.stats.Some? && forall n :: Shares(n) !in c.stats.value
    {
      var k :| 0 <= k < |cards| && cards[k] == c;
      assert result.posts[k] in result.posts;
    }
  }

  /** The total for a list of four results, written out. */
  lemma TotalPostsOfFour(results: seq<ScrapeResult>)
    requires |results| == 4
    ensures TotalPosts(results) ==
      |results[0].posts| + |results[1].posts| + |results[2].posts| + |results[3].posts|
  {
    assert results[..3][..2] == results[..2];
    assert results[..2][..1] == results[..1];
    assert results[..1][..0] == [];
    assert TotalPosts(results[..1]) == |results[0].posts|;
    assert TotalPosts(results[..2]) == TotalPosts(results[..1]) + |results[1].posts|;
    assert TotalPosts(results[..3]) == TotalPosts(results[..2]) + |results[2].posts|;
  }

  /**
   * The page for what the declared scrapers return: four sections and no
   * error banner; a "no results" notice exactly where an adapter returned no
   * posts; a total that is the sum of the four counts; a non-empty title on
   * every card and no shares stat anywhere.
   */
  lemma {:induction false} RenderScrapedResults(topic: string, upstream: Upstream, iso: int -> string)
    ensures var results := SettledResults(topic, AdapterOutcomes(upstream, iso));
      var page := Render(results);
      && page.Some?
      && |page.value.sections| == 4
      && page.value.header.totalPosts ==
           |RedditPosts(upstream.reddit, iso)| + |HackerNewsPosts(upstream.hackerNews)| +
           |GitHubPosts(upstream.gitHub)| + |DevToPosts(upstream.devTo)|
      && (forall i :: 0 <= i < 4 ==> page.value.sections[i].errorBanner.None?)
      && (forall i :: 0 <= i < 4 ==> (page.value.sections[i].noResults <==> results[i].posts == []))
      && (forall i, c :: 0 <= i < 4 && c in page.value.sections[i].cards ==>
            c.title != "" && c.stats.Some? && forall n :: Shares(n) !in c.stats.value)
  {
    var results := SettledResults(topic, AdapterOutcomes(upstream, iso));
    AdapterResults(topic, upstream, iso);
    TotalPostsOfFour(results);
    var page := Render(results);
    forall i | 0 <= i < 4
      ensures forall c :: c in page.value.sections[i].cards ==>
        c.title != "" && c.stats.Some? && forall n :: Shares(n) !in c.stats.value
    {
      CardsOfLabelledPosts(results[i]);
    }
  }
}
