# Topic scraper: normalisation, aggregation and results view

This project models the deterministic core of a small web application. The application
searches four public sites for a topic: Reddit, the Hacker News Algolia index, GitHub
repository search and Dev.to articles. It then shows the hits as one list of posts.

Three Dafny modules make up the model:

- `Js` (`js.dfy`) covers the JavaScript semantics the code relies on:
  - optional properties;
  - string truthiness;
  - `a || b || ... || 'literal'` as a left fold, proved equal to the reference reading "the first non-empty operand, else the literal";
  - `${...}` interpolation, where a missing value prints as `undefined`;
  - number-valued properties, which keep `undefined`, `null` and a number apart.
- `Scrapers` (`scrapers.dfy`) models `lib/scrapers.ts`:
  - The post and result records.
  - The four adapters. Each receives the outcome of its HTTP request: a failure, or the decoded value where the adapter looks for its items. Each runs its mapping loop inside the `try` whose `catch` returns `[]`.
  - The Product Hunt placeholder.
  - The orchestrator. It runs the four declared adapters in declaration order, wraps each call, and keeps the fulfilled outcomes of the settle-all join.
- `ResultsDisplay` (`results_display.dfy`) models `components/ResultsDisplay.tsx`. It computes what the view shows from a list of results:
  - the total in the header;
  - one section per platform, with an error banner or a "no results" notice;
  - one card per post, with its excerpt, time label and engagement stats.

How the model treats the source:

- **The mapping loop.** All four adapters share one loop, the method `CollectPosts`. Each adapter supplies a function that maps one upstream entry and gives `None` where JavaScript would throw. The loop is specified by `Batch` and `RunAdapter`: every entry maps and there is one post per entry, in order, or the adapter returns `[]`. It never returns a partial list.
- **Where an adapter finds its items.** `Listing` follows what `x || []` and `for ... of` do with each kind of JSON value:
  - A falsy value gives no items.
  - A truthy non-iterable value throws.
  - A string is walked character by character. Each character has none of the item's properties.
  - An array is walked element by element. A `null` element throws at the first property access.
- **A string where the items should be.** A missing container yields no posts, but a non-empty string container does not. Hacker News and GitHub walk the string and produce one "Untitled" post per character. For Reddit, `child.data` of a character is `undefined`, so reading `post.title` throws and the adapter returns `[]`. Dev.to checks `Array.isArray` and returns `[]`. `StringListingPosts` states all four.
- **Error messages.** A failed adapter's `error` is a copy of `error.message`, which may be the empty string. In that case the view shows no banner and shows the "no results" notice instead.
- **Counts.** A count (`ups`, `points`, `stargazers_count` and so on) is `undefined`, `null` or a number. The view shows a stat when its count `!== undefined`, so a `null` count shows its icon with no number. `null * 1000` is 0, so a `null` `created_utc` formats as the epoch, while a missing one throws.

## Model

| member | source | states |
|---|---|---|
| `Js.OrElse` | lib/scrapers.ts:44 | A chain of JavaScript or-operators ending in a string literal, folded left to right as JavaScript does, yields the first operand that is present and non-empty, or the literal when there is none |
| `Js.OrAllIsFirstTruthy` | lib/scrapers.ts:77 | The left fold of the or-operator over any number of operands agrees with the first-truthy reading, whatever literal ends the chain |
| `Js.FirstTruthy` | lib/scrapers.ts:43 | An or-chain ending in a non-empty literal, such as `'Untitled'`, is never empty |
| `Js.Interpolate` | lib/scrapers.ts:78 | Interpolating a present string gives that string, and a missing one gives the text "undefined" |
| `Scrapers.ForOf` | lib/scrapers.ts:37-39 | `x || []` followed by `for ... of` throws exactly for a truthy non-iterable value. A missing value gives no items, an array its own elements, and a string one item per character, each with no properties |
| `Scrapers.Visit` | lib/scrapers.ts:71-73 | A failed request or a non-iterable container gives a throw. Otherwise the items are those `ForOf` walks |
| `Scrapers.VisitArray` | lib/scrapers.ts:141-143 | Only a failed request throws. An array body gives its own elements and any other body gives no items |
| `Scrapers.Batch` | lib/scrapers.ts:39-53 | Mapping succeeds exactly when no entry throws. It then yields one post per entry, in entry order |
| `Scrapers.RunAdapter` | lib/scrapers.ts:27-59 | A failed request gives `[]`. A throw at any entry gives `[]`. Otherwise the posts are the entries' images, one per entry, in order |
| `Scrapers.CollectPosts` | lib/scrapers.ts:36-55 | The push loop returns exactly what `RunAdapter` specifies: every entry mapped in order, or `[]` once an entry throws |
| `Scrapers.RedditTimestamp` | lib/scrapers.ts:47 | A missing `created_utc` throws. A `null` one gives the epoch. A number succeeds exactly when `created_utc * 1000` lies within ±8.64e15 ms, and the result is the ISO text of that time value |
| `Scrapers.RedditEntry` | lib/scrapers.ts:40-52 | A child maps exactly when it is non-null, has `data` and has a valid time. The post is labelled "Reddit", with title `title, else 'Untitled'`, content `selftext, else title, else ''` and url `https://www.reddit.com${permalink}`. Author and timestamp come from the child, and engagement holds `ups` and `num_comments` with no shares |
| `Scrapers.ScrapeReddit` | lib/scrapers.ts:26-60 | Returns `RedditPosts` of the response |
| `Scrapers.RedditPostsSpec` | lib/scrapers.ts:36-59 | Reddit returns one post per child, in order, with the Reddit field rules, when every child maps. Otherwise it returns `[]` |
| `Scrapers.HackerNewsEntry` | lib/scrapers.ts:74-85 | Only a null hit throws. The post is labelled "Hacker News", with content `story_text, else comment_text, else title, else ''`. Its url is `url` when non-empty, else `https://news.ycombinator.com/item?id=${objectID}`. Counts are `points` and `num_comments` |
| `Scrapers.ScrapeHackerNews` | lib/scrapers.ts:63-93 | Returns `HackerNewsPosts` of the response |
| `Scrapers.HackerNewsPostsSpec` | lib/scrapers.ts:70-92 | One post per hit, in order, when no hit is null. Otherwise `[]` |
| `Scrapers.GitHubEntry` | lib/scrapers.ts:111-122 | Only a null item throws. The post is labelled "GitHub", with title `full_name, else 'Untitled'`, content `description, else ''`, url `html_url` unchanged and author `owner?.login`. Counts are stars and open issues |
| `Scrapers.ScrapeGitHub` | lib/scrapers.ts:96-130 | Returns `GitHubPosts` of the response |
| `Scrapers.GitHubPostsSpec` | lib/scrapers.ts:107-129 | One post per item, in order, when no item is null. Otherwise `[]` |
| `Scrapers.DevToEntry` | lib/scrapers.ts:144-155 | Only a null article throws. The post is labelled "Dev.to", with title `title, else 'Untitled'`, content `description, else ''`, url `url` unchanged and author `user?.username`. Counts are reactions and comments |
| `Scrapers.ScrapeDevTo` | lib/scrapers.ts:133-163 | Returns `DevToPosts` of the response |
| `Scrapers.DevToPostsSpec` | lib/scrapers.ts:140-162 | A non-array body gives `[]`. An array gives one post per article, in order, when no article is null, and `[]` otherwise |
| `Scrapers.ScrapeProductHunt` | lib/scrapers.ts:166-175 | The placeholder adapter returns no posts for any topic |
| `Scrapers.NoListingNoPosts` | lib/scrapers.ts:37-141 | A failed request, or a missing or non-iterable item list, gives `[]` on every platform. Reddit and Dev.to give `[]` for anything but an array |
| `Scrapers.StringListingPosts` | lib/scrapers.ts:37-141 | A string container gives Hacker News and GitHub one post per character, each titled "Untitled" with empty content and undefined counts. The Hacker News link is the item page of id "undefined", and GitHub has no link. Reddit and Dev.to give `[]` |
| `Scrapers.AdapterPostsLabelled` | lib/scrapers.ts:41-154 | Every post an adapter returns carries that adapter's platform name and a non-empty title, and its engagement has no `shares` |
| `Scrapers.ErrorMessage` | lib/scrapers.ts:200 | An `Error` instance contributes its own message, and any other thrown value gives "Unknown error" |
| `Scrapers.Settle` | lib/scrapers.ts:187-203 | The wrapper echoes the topic and the scraper name. A return keeps the posts and sets no error. A throw gives no posts, with the error's message, or "Unknown error" for a non-Error value. `error` is set exactly on a throw |
| `Scrapers.FulfilledValues` | lib/scrapers.ts:207-211 | The filter keeps only values of fulfilled entries and never more entries than were settled |
| `Scrapers.FulfilledValuesAll` | lib/scrapers.ts:205-211 | When no entry was rejected, the filter keeps every entry, in order |
| `Scrapers.KeepFulfilled` | lib/scrapers.ts:207-211 | The push loop over settled entries returns exactly the fulfilled values, in order |
| `Scrapers.SettledResults` | lib/scrapers.ts:180-201 | There is exactly one result per declared scraper, in declaration order. Each echoes the topic and names its scraper. `error` is set exactly when the call threw, and then there are no posts |
| `Scrapers.Aggregate` | lib/scrapers.ts:187-213 | Wrapping each call, settling all of them and keeping the fulfilled ones gives `SettledResults` |
| `Scrapers.ScrapeAllPlatforms` | lib/scrapers.ts:177-214 | Running the four declared adapters in order gives `SettledResults` of their outcomes |
| `Scrapers.AdapterResults` | lib/scrapers.ts:180-194 | `scrapeAllPlatforms` yields four results: Reddit, Hacker News, GitHub, Dev.to. Each has the topic, its adapter's posts and no error, and every post carries its result's platform name |
| `ResultsDisplay.Excerpt` | components/ResultsDisplay.tsx:27-31 | Empty content shows no excerpt. Content of at most 200 characters is shown whole. Longer content is shown as its first 200 characters and "...", so an excerpt has at most 203 characters |
| `ResultsDisplay.TimeAgo` | components/ResultsDisplay.tsx:11-13 | "Unknown time" is shown exactly when the timestamp is missing or empty. Otherwise the distance is computed from the post's own timestamp |
| `ResultsDisplay.Stats` | components/ResultsDisplay.tsx:36-44 | A stat is shown for each engagement field that is not `undefined`, and only for those, with the field's value (a `null` shows an empty number). There is one stat per such field, in the order likes, comments, shares |
| `ResultsDisplay.PostCard` | components/ResultsDisplay.tsx:10-49 | The card shows the platform badge, the title and the link. The author appears exactly when it is non-empty. The stats block appears exactly when the post has an engagement record |
| `ResultsDisplay.PlatformSection` | components/ResultsDisplay.tsx:64-83 | The section counts the platform's posts and has one card per post. The error banner appears exactly when `error` is non-empty. The "no results" notice appears exactly when there are no posts and no such error. The two never appear together |
| `ResultsDisplay.TotalPostsAppend` | components/ResultsDisplay.tsx:52 | The `reduce` total is additive over concatenated result lists |
| `ResultsDisplay.TotalPosts` | components/ResultsDisplay.tsx:52 | Every platform's post count is at most the total, and the total is zero exactly when every platform has no posts |
| `ResultsDisplay.TotalPostsOfFour` | components/ResultsDisplay.tsx:52 | For four results, the total is the sum of their four post counts |
| `ResultsDisplay.Render` | components/ResultsDisplay.tsx:51-86 | Nothing is rendered for an empty list. Otherwise the header reports the total and the number of platforms, and there is one section per result, in order |
| `ResultsDisplay.CardsOfLabelledPosts` | components/ResultsDisplay.tsx:18-45 | Cards built from adapter posts carry the section's platform and a non-empty title, and never show a shares stat |
| `ResultsDisplay.RenderScrapedResults` | components/ResultsDisplay.tsx:51-86 | For what `scrapeAllPlatforms` returns, the page has four sections and no error banner. A "no results" notice appears exactly where an adapter returned nothing. The header total is the sum of the four adapters' counts, and every card has a title and no shares stat |

## Left out

- Network I/O is not modelled: `axios.get`, its headers, the 10-second timeouts, the result caps and the `encodeURIComponent` query templating. Each adapter receives its request's outcome as a `Response` value.
- Concurrency is not modelled. `Promise.allSettled` and the async scheduling become a sequential run of the four adapters, followed by the same filter loop, so latency properties are not stated.
- Date formatting is left to the caller. `toISOString` of a valid time value is the caller-supplied function `iso`; only the condition under which it throws is modelled. `formatDistanceToNow` (date-fns, clock-dependent) is reduced to `TimeLabel.DistanceToNow(timestamp)`. Its throw on an unparsable timestamp at render time is not modelled.
- RedditTimestamp: `created_utc` and all engagement counts are integers here, while JavaScript numbers are doubles, so fractional seconds and rounding in `created_utc * 1000` are not modelled.
- Interpolate: a missing string property is `None`, which stands for both `undefined` and `null`. They agree for `||` and `?.`, but a `null` permalink or objectID interpolates as "null", not "undefined", which the model does not distinguish.
- Upstream fields are assumed to hold their documented JSON types: strings or absent, numbers, `null` or absent. A number where a title is expected, for instance, is not modelled.
- Excerpt: lengths and the 200-character cut count Unicode scalar values. JavaScript counts UTF-16 code units, so the two differ for characters outside the Basic Multilingual Plane.
- Logging (`console.error`), the unused `cheerio` import, JSX markup, CSS classes and React keys are not modelled.
- app/page.tsx, components/SearchForm.tsx, app/api/scrape/route.ts and app/layout.tsx are not part of this model. They hold UI state, the form widget, the HTTP boundary with its topic check, and static metadata. The orchestrator puts no requirement on the topic, just as `scrapeAllPlatforms` does not.
