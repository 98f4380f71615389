/**
 * `search_and_paginate` (twitter_network_search.py:192-224): one search call,
 * then a further page per `next_token` while fewer tweets than requested have
 * been collected; the tweets are cleaned at the end.  Start and end times
 * arrive already converted by `day_to_time`, which is not part of this model.
 */
module Pagination {
  import opened Wrappers
  import opened Frames
  import opened Normalise
  import opened Urls
  import opened Fetcher
  import opened Collect

  /** `results_each_call`: the page size asked of the search endpoint. */
  const ResultsEachCall := 100

  /**
   * `json_response['data']`, `json_response['includes']['users']` and the
   * `json_response['meta']` lookup of the loop condition, in that order.
   */
  function ReadPage(b: Body): (r: Result<Page, Error>)
    ensures r.Success? <==> b.data.Some? && Users(b).Success? && b.meta.Some?
    ensures r.Success? ==> r.value == Page(b.data.value, Users(b).value, b.meta.value.nextToken)
    ensures b.data.None? ==> r == Failure(KeyError("data"))
    ensures b.data.Some? && Users(b).Success? && b.meta.None? ==> r == Failure(KeyError("meta"))
  {
    var tweets :- Data(b);
    var users :- Users(b);
    if b.meta.None? then Failure(KeyError("meta")) else Success(Page(tweets, users, b.meta.value.nextToken))
  }

  /** `connect_to_endpoint(url)` followed by reading the page out of the response. */
  function FetchPage(w: World, url: string, wait: bool): (s: Step)
    ensures s.world == Fetch(w, url, wait).world && s.world.calls == w.calls + [url]
    ensures Fetch(w, url, wait).result.Success? ==> s.page == ReadPage(Fetch(w, url, wait).result.value)
    ensures Fetch(w, url, wait).result.Failure? ==> s.page == Failure(Fetch(w, url, wait).result.error)
    ensures s.page.Success? ==> |s.world.pending| < |w.pending|
  {
    var f := Fetch(w, url, wait);
    match f.result
    case Failure(e) => Step(Failure(e), f.world)
    case Success(body) => Step(ReadPage(body), f.world)
  }

  /** The token in force before page i is fetched: the previous page's. */
  function TokenBefore(next: Option<string>, pages: seq<Page>, i: nat): Option<string>
    requires i <= |pages|
  {
    if i == 0 then next else pages[i - 1].next
  }

  /** The page URLs the loop asks for, one per page read after the first token. */
  function PageUrls(url: string, next: Option<string>, pages: seq<Page>): seq<string>
    decreases |pages|
  {
    if |pages| == 0 || next.None? then []
    else [NextPageUrl(url, next.value)] + PageUrls(url, pages[0].next, pages[1..])
  }

  /**
   * The `while` loop of lines 214-220: fetch `url&next_token=…` while the last
   * page carried a token and fewer than `n` tweets were collected.
   */
  function PageLoop(w: World, url: string, wait: bool, n: int, tweets: Table, users: Table, next: Option<string>): (r: Paged)
    decreases |w.pending|
  {
    if next.None? || |tweets.rows| >= n then Paged(Success((tweets, users)), w, [])
    else
      var f := FetchPage(w, NextPageUrl(url, next.value), wait);
      match f.page
      case Failure(e) => Paged(Failure(e), f.world, [])
      case Success(p) =>
        var rest := PageLoop(f.world, url, wait, n, Append(tweets, FromRecords(p.tweets)), Append(users, FromRecords(p.users)), p.next);
        Paged(rest.outcome, rest.world, [p] + rest.pages)
  }

  /** The whole of `search_and_paginate`, with the corrected `search_url`. */
  function Search(w: World, query: string, n: int, wait: bool, startTime: Option<string>, endTime: Option<string>): (r: Paged) {
    SearchFrom(w, SearchUrl(query, ResultsEachCall, startTime, endTime), n, wait)
  }

  /** Lines 205-224 once the first URL is built: the first page, the paging loop and the cleaning. */
  function SearchFrom(w: World, url: string, n: int, wait: bool): (r: Paged) {
    var f := FetchPage(w, url, wait);
    match f.page
    case Failure(e) => Paged(Failure(e), f.world, [])
    case Success(p) =>
      var loop := PageLoop(f.world, url, wait, n, FromRecords(p.tweets), FromRecords(p.users), p.next);
      Paged(CleanTweets(loop.outcome), loop.world, [p] + loop.pages)
  }

  /** `df_tweets = clean_tweets_dataframe(df_tweets)` after the loop; users are kept as they are. */
  function CleanTweets(o: Result<(Table, Table), Error>): Result<(Table, Table), Error> {
    match o
    case Failure(e) => Failure(e)
    case Success(tables) =>
      match Clean(tables.0)
      case Failure(e) => Failure(e)
      case Success(cleaned) => Success((cleaned, tables.1))
  }

  // ------------------------------------------------------------------- lemmas

  /**
   * The tables the loop returns hold the starting records followed by the
   * records of every page it read, in fetch order.
   */
  lemma {:induction false} PageLoopCollects(w: World, url: string, wait: bool, n: int, ts: seq<Row>, us: seq<Row>, next: Option<string>)
    requires PageLoop(w, url, wait, n, FromRecords(ts), FromRecords(us), next).outcome.Success?
    ensures var r := PageLoop(w, url, wait, n, FromRecords(ts), FromRecords(us), next);
      r.outcome.value == (FromRecords(ts + AllTweets(r.pages)), FromRecords(us + AllUsers(r.pages)))
    decreases |w.pending|
  {
    var r := PageLoop(w, url, wait, n, FromRecords(ts), FromRecords(us), next);
    if next.None? || |ts| >= n {
      assert r.pages == [];
      assert ts + AllTweets(r.pages) == ts && us + AllUsers(r.pages) == us;
    } else {
      var f := FetchPage(w, NextPageUrl(url, next.value), wait);
      var p := f.page.value;
      var rest := PageLoop(f.world, url, wait, n, FromRecords(ts + p.tweets), FromRecords(us + p.users), p.next);
      PageLoopUnfold(w, url, wait, n, ts, us, next);
      PageLoopCollects(f.world, url, wait, n, ts + p.tweets, us + p.users, p.next);
      CollectedAfter(ts, us, p, rest.pages);
    }
  }

  /** One turn of the loop on frames built from records. */
  lemma PageLoopUnfold(w: World, url: string, wait: bool, n: int, ts: seq<Row>, us: seq<Row>, next: Option<string>)
    requires next.Some? && |ts| < n
    requires FetchPage(w, NextPageUrl(url, next.value), wait).page.Success?
    ensures var f := FetchPage(w, NextPageUrl(url, next.value), wait);
      var p := f.page.value;
      var rest := PageLoop(f.world, url, wait, n, FromRecords(ts + p.tweets), FromRecords(us + p.users), p.next);
      PageLoop(w, url, wait, n, FromRecords(ts), FromRecords(us), next) == Paged(rest.outcome, rest.world, [p] + rest.pages)
  {
    var p := FetchPage(w, NextPageUrl(url, next.value), wait).page.value;
    AppendRecords(ts, p.tweets);
    AppendRecords(us, p.users);
  }

  /**
   * A page is fetched only while the token before it is present and fewer
   * than `n` tweets have been collected.
   */
  lemma {:induction false} PageLoopFetchesWhile(w: World, url: string, wait: bool, n: int, tweets: Table, users: Table, next: Option<string>, i: nat)
    requires i < |PageLoop(w, url, wait, n, tweets, users, next).pages|
    ensures var r := PageLoop(w, url, wait, n, tweets, users, next);
      TokenBefore(next, r.pages, i).Some? && |tweets.rows| + |AllTweets(r.pages[..i])| < n
    decreases |w.pending|
  {
    var r := PageLoop(w, url, wait, n, tweets, users, next);
    var f := FetchPage(w, NextPageUrl(url, next.value), wait);
    var p := f.page.value;
    var tweets' := Append(tweets, FromRecords(p.tweets));
    var users' := Append(users, FromRecords(p.users));
    var rest := PageLoop(f.world, url, wait, n, tweets', users', p.next);
    assert r.pages == [p] + rest.pages;
    if i > 0 {
      PageLoopFetchesWhile(f.world, url, wait, n, tweets', users', p.next, i - 1);
      var before := rest.pages[..i - 1];
      assert r.pages[..i] == [p] + before;
      AllRecordsCons(p, before);
    } else {
      assert r.pages[..0] == [];
    }
  }

  /** On success the loop stopped because the token ran out or enough tweets were collected. */
  lemma {:induction false} PageLoopStops(w: World, url: string, wait: bool, n: int, tweets: Table, users: Table, next: Option<string>)
    requires PageLoop(w, url, wait, n, tweets, users, next).outcome.Success?
    ensures var r := PageLoop(w, url, wait, n, tweets, users, next);
      TokenBefore(next, r.pages, |r.pages|).None? || |r.outcome.value.0.rows| >= n
    decreases |w.pending|
  {
    if !(next.None? || |tweets.rows| >= n) {
      var f := FetchPage(w, NextPageUrl(url, next.value), wait);
      var p := f.page.value;
      PageLoopStops(f.world, url, wait, n, Append(tweets, FromRecords(p.tweets)), Append(users, FromRecords(p.users)), p.next);
    }
  }

  /** On success the loop called the API once per page, with that page's token, in order. */
  lemma {:induction false} PageLoopCalls(w: World, url: string, wait: bool, n: int, tweets: Table, users: Table, next: Option<string>)
    requires PageLoop(w, url, wait, n, tweets, users, next).outcome.Success?
    ensures var r := PageLoop(w, url, wait, n, tweets, users, next);
      r.world.calls == w.calls + PageUrls(url, next, r.pages)
    decreases |w.pending|
  {
    var r := PageLoop(w, url, wait, n, tweets, users, next);
    if !(next.None? || |tweets.rows| >= n) {
      var f := FetchPage(w, NextPageUrl(url, next.value), wait);
      var p := f.page.value;
      PageLoopCalls(f.world, url, wait, n, Append(tweets, FromRecords(p.tweets)), Append(users, FromRecords(p.users)), p.next);
      assert ([p] + PageLoop(f.world, url, wait, n, Append(tweets, FromRecords(p.tweets)), Append(users, FromRecords(p.users)), p.next).pages)[1..]
        == PageLoop(f.world, url, wait, n, Append(tweets, FromRecords(p.tweets)), Append(users, FromRecords(p.users)), p.next).pages;
    }
  }

  /**
   * A successful search from first URL `url` (the corrected `search_url` or
   * the one the source builds) returns the cleaned frame of every tweet record of
   * every page and the frame of every user record, in fetch order; it asked
   * for the search URL and then for each page's `next_token`; and it stopped
   * because no token was left or `n` tweets were collected.
   */
  lemma {:induction false} SearchResult(w: World, url: string, n: int, wait: bool)
    requires SearchFrom(w, url, n, wait).outcome.Success?
    ensures var r := SearchFrom(w, url, n, wait);
      && |r.pages| > 0
      && Clean(FromRecords(AllTweets(r.pages))) == Success(r.outcome.value.0)
      && r.outcome.value.1 == FromRecords(AllUsers(r.pages))
      && r.world.calls == w.calls + [url] + PageUrls(url, r.pages[0].next, r.pages[1..])
      && (r.pages[|r.pages| - 1].next.None? || |AllTweets(r.pages)| >= n)
  {
    SearchFromUnfold(w, url, n, wait);
    var f := FetchPage(w, url, wait);
    var p := f.page.value;
    var loop := PageLoop(f.world, url, wait, n, FromRecords(p.tweets), FromRecords(p.users), p.next);
    var r := SearchFrom(w, url, n, wait);
    assert r.pages[1..] == loop.pages;
    PageLoopCollects(f.world, url, wait, n, p.tweets, p.users, p.next);
    PageLoopCalls(f.world, url, wait, n, FromRecords(p.tweets), FromRecords(p.users), p.next);
    PageLoopStops(f.world, url, wait, n, FromRecords(p.tweets), FromRecords(p.users), p.next);
    AllRecordsCons(p, loop.pages);
    assert TokenBefore(p.next, loop.pages, |loop.pages|) == r.pages[|r.pages| - 1].next;
  }

  /** A successful search read its first page and then ran the loop from that page's token. */
  lemma SearchFromUnfold(w: World, url: string, n: int, wait: bool)
    requires SearchFrom(w, url, n, wait).outcome.Success?
    ensures FetchPage(w, url, wait).page.Success?
    ensures var p := FetchPage(w, url, wait).page.value;
      var loop := PageLoop(FetchPage(w, url, wait).world, url, wait, n, FromRecords(p.tweets), FromRecords(p.users), p.next);
      && loop.outcome.Success?
      && SearchFrom(w, url, n, wait) == Paged(CleanTweets(loop.outcome), loop.world, [p] + loop.pages)
  {
  }

  /**
   * With both time bounds or neither, the corrected search is the search the
   * source makes with its own `search_url`.
   */
  lemma SearchAsWrittenAgreement(w: World, query: string, n: int, wait: bool, startTime: Option<string>, endTime: Option<string>)
    requires startTime.Some? == endTime.Some?
    ensures Search(w, query, n, wait, startTime, endTime)
         == SearchFrom(w, SearchUrlAsWritten(query, ResultsEachCall, startTime, endTime), n, wait)
  {
    SearchUrlAgreement(query, ResultsEachCall, startTime, endTime);
  }

  // ------------------------------------------------------------- the method

  /** `search_and_paginate(query, num_results, wait_on_timeout, …)`. */
  method SearchAndPaginate(client: Client, query: string, n: int, wait: bool, startTime: Option<string>, endTime: Option<string>)
    returns (r: Result<(Table, Table), Error>)
    modifies client
    ensures Run(r, client.State()) == var s := Search(old(client.State()), query, n, wait, startTime, endTime); Run(s.outcome, s.world)
  {
    ghost var start := client.State();
    var url := SearchUrl(query, ResultsEachCall, startTime, endTime);
    var body := client.ConnectToEndpoint(url, wait);
    ghost var first := FetchPage(start, url, wait);
    assert first.world == client.State();
    if body.Failure? {
      assert first.page == Failure(body.error);
      return Failure(body.error);
    }
    var page := ReadPage(body.value);
    assert first.page == page;
    if page.Failure? {
      return Failure(page.error);
    }
    var tweets := FromRecords(page.value.tweets);
    var users := FromRecords(page.value.users);
    var next := page.value.next;
    ghost var loopGoal := PageLoop(client.State(), url, wait, n, tweets, users, next);
    while next.Some? && |tweets.rows| < n
      invariant PageLoop(client.State(), url, wait, n, tweets, users, next).outcome == loopGoal.outcome
      invariant PageLoop(client.State(), url, wait, n, tweets, users, next).world == loopGoal.world
      decreases |client.pending|
    {
      ghost var before := client.State();
      body := client.ConnectToEndpoint(NextPageUrl(url, next.value), wait);
      ghost var step := FetchPage(before, NextPageUrl(url, next.value), wait);
      assert step.world == client.State();
      if body.Failure? {
        assert step.page == Failure(body.error);
        return Failure(body.error);
      }
      page := ReadPage(body.value);
      assert step.page == page;
      if page.Failure? {
        return Failure(page.error);
      }
      tweets := Append(tweets, FromRecords(page.value.tweets));
      users := Append(users, FromRecords(page.value.users));
      next := page.value.next;
    }
    assert loopGoal.outcome == Success((tweets, users)) && loopGoal.world == client.State();
    ghost var goal := SearchFrom(start, url, n, wait);
    assert goal.outcome == CleanTweets(loopGoal.outcome) && goal.world == loopGoal.world;
    var frame := new Frame(tweets);
    var cleaned := CleanInPlace(frame);
    assert client.State() == goal.world;
    if cleaned.Failure? {
      assert Clean(tweets) == Failure(cleaned.error);
      return Failure(cleaned.error);
    }
    assert Clean(tweets) == Success(cleaned.value.View());
    return Success((cleaned.value.View(), users));
  }
}
