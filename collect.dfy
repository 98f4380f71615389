/**
 * What the crawling loops share: the records one response contributes, the
 * list of them a loop read, and the final "clean the new tweets and append
 * them" step of `get_original_tweets` and `get_conversations`.
 */
module Collect {
  import opened Wrappers
  import opened Frames
  import opened Normalise
  import opened Fetcher

  /**
   * What a loop reads from one response: its tweet and user records and,
   * for the search endpoint, the `next_token` of its `meta` object.
   */
  datatype Page = Page(tweets: seq<Row>, users: seq<Row>, next: Option<string>)

  /** A loop's outcome and world, together with the pages it read, in fetch order. */
  datatype Paged = Paged(outcome: Result<(Table, Table), Error>, world: World, pages: seq<Page>)

  /** The outcome of fetching and reading one page. */
  datatype Step = Step(page: Result<Page, Error>, world: World)

  /** All tweet records of the pages, in order. */
  function AllTweets(pages: seq<Page>): seq<Row> {
    if |pages| == 0 then [] else pages[0].tweets + AllTweets(pages[1..])
  }

  /** All user records of the pages, in order. */
  function AllUsers(pages: seq<Page>): seq<Row> {
    if |pages| == 0 then [] else pages[0].users + AllUsers(pages[1..])
  }

  /** Reading one more page in front adds its records in front. */
  lemma AllRecordsCons(p: Page, pages: seq<Page>)
    ensures AllTweets([p] + pages) == p.tweets + AllTweets(pages)
    ensures AllUsers([p] + pages) == p.users + AllUsers(pages)
  {
    assert ([p] + pages)[1..] == pages;
  }

  /**
   * The records collected before a page, then those of the page and of the
   * pages after it: the page's records join the earlier ones.
   */
  lemma CollectedAfter(ts: seq<Row>, us: seq<Row>, p: Page, pages: seq<Page>)
    ensures ts + AllTweets([p] + pages) == (ts + p.tweets) + AllTweets(pages)
    ensures us + AllUsers([p] + pages) == (us + p.users) + AllUsers(pages)
  {
    AllRecordsCons(p, pages);
  }

  /**
   * `clean_tweets_dataframe` on the collected tweets, then both collected
   * frames appended to the given ones (lines 253-256 and 278-281).
   */
  function AppendCleaned(o: Result<(Table, Table), Error>, tweets: Table, users: Table): (r: Result<(Table, Table), Error>)
    ensures r.Success? <==> o.Success? && Clean(o.value.0).Success?
    ensures r.Success? ==> r.value == (Append(tweets, Clean(o.value.0).value), Append(users, o.value.1))
  {
    match o
    case Failure(e) => Failure(e)
    case Success(found) =>
      match Clean(found.0)
      case Failure(e) => Failure(e)
      case Success(cleaned) => Success((Append(tweets, cleaned), Append(users, found.1)))
  }
}
