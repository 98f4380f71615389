/**
 * `get_original_tweets` (twitter_network_search.py:229-258): the retweets
 * whose original is not in the table name the tweets to look up; the ids are
 * de-duplicated, split into batches of 100, looked up one batch per call, and
 * the cleaned originals and their users are appended to the input frames.
 */
module Originals {
  import opened Wrappers
  import opened Frames
  import opened Normalise
  import opened Urls
  import opened Fetcher
  import opened Collect
  import opened Selection

  const Retweeted := Str("retweeted")

  /** Row `row` is a retweet of the tweet with id `x`. */
  predicate IsRetweetOf(row: Row, x: Value) {
    Cell(row, TypeColumn) == Retweeted && Cell(row, ReferencedTweetId) == x
  }

  /** Some row of `rows` has id `x` (pandas `isin`, for which NaN matches NaN). */
  predicate HasId(rows: seq<Row>, x: Value) {
    exists j :: 0 <= j < |rows| && Cell(rows[j], IdColumn) == x
  }

  /** The targets of the retweets among `rows` that no row of `known` has as its id, in row order. */
  function Targets(rows: seq<Row>, known: seq<Row>): (ids: seq<Value>)
    ensures forall x :: x in ids <==> (exists i :: 0 <= i < |rows| && IsRetweetOf(rows[i], x)) && !HasId(known, x)
    ensures |ids| <= |rows|
  {
    if |rows| == 0 then []
    else
      var x := Cell(rows[0], ReferencedTweetId);
      var rest := Targets(rows[1..], known);
      assert forall y :: (exists i :: 0 <= i < |rows| && IsRetweetOf(rows[i], y)) <==>
        IsRetweetOf(rows[0], y) || exists i :: 0 <= i < |rows[1..]| && IsRetweetOf(rows[1..][i], y) by {
        forall y | exists i :: 0 <= i < |rows| && IsRetweetOf(rows[i], y)
          ensures IsRetweetOf(rows[0], y) || exists i :: 0 <= i < |rows[1..]| && IsRetweetOf(rows[1..][i], y)
        {
          var i :| 0 <= i < |rows| && IsRetweetOf(rows[i], y);
          if i > 0 { assert rows[1..][i - 1] == rows[i]; }
        }
      }
      (if IsRetweetOf(rows[0], x) && !HasId(known, x) then [x] else []) + rest
  }

  /** The targets of a table's rows are those of its first rows followed by those of the rest. */
  lemma {:induction false} TargetsConcat(a: seq<Row>, b: seq<Row>, known: seq<Row>)
    ensures Targets(a + b, known) == Targets(a, known) + Targets(b, known)
  {
    if |a| == 0 {
      assert a + b == b;
    } else {
      assert (a + b)[0] == a[0] && (a + b)[1..] == a[1..] + b;
      TargetsConcat(a[1..], b, known);
    }
  }

  /** A single row contributes its `referenced_tweet_id` exactly when it is a retweet of an unknown tweet. */
  lemma TargetsOne(row: Row, known: seq<Row>)
    ensures var x := Cell(row, ReferencedTweetId);
      Targets([row], known) == if IsRetweetOf(row, x) && !HasId(known, x) then [x] else []
  {
    assert [row][1..] == [];
  }

  /**
   * Line 238: the `referenced_tweet_id` of every row with `type == 'retweeted'`
   * whose target is not an `id` of the table.  The three columns are looked
   * up in the order the expression evaluates them.
   */
  function MissingOriginals(t: Table): (r: Result<seq<Value>, Error>)
    ensures r.Success? <==> ReferencedTweetId in t.cols && IdColumn in t.cols && TypeColumn in t.cols
    ensures ReferencedTweetId !in t.cols ==> r == Failure(KeyError(ReferencedTweetId))
    ensures ReferencedTweetId in t.cols && IdColumn !in t.cols ==> r == Failure(KeyError(IdColumn))
    ensures ReferencedTweetId in t.cols && IdColumn in t.cols && TypeColumn !in t.cols ==> r == Failure(KeyError(TypeColumn))
    ensures r.Success? ==> forall x :: x in r.value <==>
      (exists i :: 0 <= i < |t.rows| && IsRetweetOf(t.rows[i], x)) && !HasId(t.rows, x)
  {
    if ReferencedTweetId !in t.cols then Failure(KeyError(ReferencedTweetId))
    else if IdColumn !in t.cols then Failure(KeyError(IdColumn))
    else if TypeColumn !in t.cols then Failure(KeyError(TypeColumn))
    else Success(Targets(t.rows, t.rows))
  }

  /** Lines 241-244: de-duplicated ids in batches of at most 100. */
  function Batches(ids: seq<Value>): (cs: seq<seq<Value>>)
    ensures Flatten(cs) == Dedup(ids)
    ensures NoDuplicates(Flatten(cs)) && forall x :: x in Flatten(cs) <==> x in ids
    ensures forall i :: 0 <= i < |cs| ==> 0 < |cs[i]| <= BatchSize
    ensures |cs| == (|Dedup(ids)| + BatchSize - 1) / BatchSize
  {
    ChunksFlatten(Dedup(ids));
    Chunks(Dedup(ids))
  }

  /** The ids of a batch as the texts `','.join` glues together. */
  function Texts(chunk: seq<Value>): (ss: seq<string>)
    ensures |ss| == |chunk|
  {
    seq(|chunk|, i requires 0 <= i < |chunk| => Text(chunk[i]))
  }

  /** `','.join(chunk)`: a TypeError unless every id is a string. */
  function IdTexts(chunk: seq<Value>): (r: Result<seq<string>, Error>)
    ensures r.Success? <==> forall i :: 0 <= i < |chunk| ==> chunk[i].Str?
    ensures r.Success? ==> r.value == Texts(chunk) && forall i :: 0 <= i < |chunk| ==> r.value[i] == chunk[i].s
  {
    if forall i :: 0 <= i < |chunk| ==> chunk[i].Str? then Success(Texts(chunk)) else Failure(TypeError)
  }

  /** `connect_to_endpoint(url)` (waiting on 429) and the `data` and `includes.users` of the answer. */
  function FetchRecords(w: World, url: string): (s: Step)
    ensures s.world == Fetch(w, url, true).world && s.world.calls == w.calls + [url]
    ensures var f := Fetch(w, url, true);
      s.page.Success? <==> f.result.Success? && Data(f.result.value).Success? && Users(f.result.value).Success?
    ensures var f := Fetch(w, url, true);
      s.page.Success? ==> s.page.value == Page(Data(f.result.value).value, Users(f.result.value).value, None)
    ensures Fetch(w, url, true).result.Failure? ==> s.page == Failure(Fetch(w, url, true).result.error)
  {
    var f := Fetch(w, url, true);
    match f.result
    case Failure(e) => Step(Failure(e), f.world)
    case Success(body) =>
      match Data(body)
      case Failure(e) => Step(Failure(e), f.world)
      case Success(tweets) =>
        match Users(body)
        case Failure(e) => Step(Failure(e), f.world)
        case Success(users) => Step(Success(Page(tweets, users, None)), f.world)
  }

  /** The lookup URL of every batch, in order. */
  function LookupUrls(chunks: seq<seq<Value>>): seq<string> {
    if |chunks| == 0 then [] else [TweetsUrl(Texts(chunks[0]))] + LookupUrls(chunks[1..])
  }

  /** The loop of lines 246-251 over the remaining batches. */
  function ChunkLoop(w: World, chunks: seq<seq<Value>>, tweets: Table, users: Table): (r: Paged)
    decreases |chunks|
  {
    if |chunks| == 0 then Paged(Success((tweets, users)), w, [])
    else
      match IdTexts(chunks[0])
      case Failure(e) => Paged(Failure(e), w, [])
      case Success(ids) =>
        var f := FetchRecords(w, TweetsUrl(ids));
        match f.page
        case Failure(e) => Paged(Failure(e), f.world, [])
        case Success(p) =>
          var rest := ChunkLoop(f.world, chunks[1..], Append(tweets, FromRecords(p.tweets)), Append(users, FromRecords(p.users)));
          Paged(rest.outcome, rest.world, [p] + rest.pages)
  }

  /** The whole of `get_original_tweets(df_tweets, df_users)`. */
  function GetOriginals(w: World, tweets: Table, users: Table): (r: Paged) {
    match MissingOriginals(tweets)
    case Failure(e) => Paged(Failure(e), w, [])
    case Success(ids) =>
      var loop := ChunkLoop(w, Batches(ids), Empty, Empty);
      Paged(AppendCleaned(loop.outcome, tweets, users), loop.world, loop.pages)
  }

  // ------------------------------------------------------------------- lemmas

  /** One turn of the batch loop on frames built from records. */
  lemma ChunkLoopUnfold(w: World, chunks: seq<seq<Value>>, ts: seq<Row>, us: seq<Row>)
    requires |chunks| > 0 && IdTexts(chunks[0]).Success?
    requires FetchRecords(w, TweetsUrl(IdTexts(chunks[0]).value)).page.Success?
    ensures var f := FetchRecords(w, TweetsUrl(IdTexts(chunks[0]).value));
      var p := f.page.value;
      var rest := ChunkLoop(f.world, chunks[1..], FromRecords(ts + p.tweets), FromRecords(us + p.users));
      ChunkLoop(w, chunks, FromRecords(ts), FromRecords(us)) == Paged(rest.outcome, rest.world, [p] + rest.pages)
  {
    var p := FetchRecords(w, TweetsUrl(IdTexts(chunks[0]).value)).page.value;
    AppendRecords(ts, p.tweets);
    AppendRecords(us, p.users);
  }

  /** The batch loop reads one page per batch, and returns every record of every page, in order. */
  lemma {:induction false} ChunkLoopCollects(w: World, chunks: seq<seq<Value>>, ts: seq<Row>, us: seq<Row>)
    requires ChunkLoop(w, chunks, FromRecords(ts), FromRecords(us)).outcome.Success?
    ensures var r := ChunkLoop(w, chunks, FromRecords(ts), FromRecords(us));
      && |r.pages| == |chunks|
      && r.outcome.value == (FromRecords(ts + AllTweets(r.pages)), FromRecords(us + AllUsers(r.pages)))
      && r.world.calls == w.calls + LookupUrls(chunks)
    decreases |chunks|
  {
    var r := ChunkLoop(w, chunks, FromRecords(ts), FromRecords(us));
    if |chunks| == 0 {
      assert r.pages == [];
      assert ts + AllTweets(r.pages) == ts && us + AllUsers(r.pages) == us;
    } else {
      var f := FetchRecords(w, TweetsUrl(IdTexts(chunks[0]).value));
      var p := f.page.value;
      var rest := ChunkLoop(f.world, chunks[1..], FromRecords(ts + p.tweets), FromRecords(us + p.users));
      ChunkLoopUnfold(w, chunks, ts, us);
      ChunkLoopCollects(f.world, chunks[1..], ts + p.tweets, us + p.users);
      CollectedAfter(ts, us, p, rest.pages);
      CallsThenLookups(w.calls, chunks);
    }
  }

  /** After the calls made so far, the lookups of the batches start with the first batch's. */
  lemma {:induction false} CallsThenLookups(calls: seq<string>, chunks: seq<seq<Value>>)
    requires |chunks| > 0
    ensures calls + LookupUrls(chunks) == (calls + [TweetsUrl(Texts(chunks[0]))]) + LookupUrls(chunks[1..])
  {
    var first, rest := TweetsUrl(Texts(chunks[0])), LookupUrls(chunks[1..]);
    assert LookupUrls(chunks) == [first] + rest;
    assert calls + ([first] + rest) == (calls + [first]) + rest;
  }

  /**
   * A successful `get_original_tweets` looks up exactly the de-duplicated
   * missing originals, in batches of at most 100 in first-occurrence order,
   * one call per batch, and returns the input frames followed by the cleaned
   * originals and their users.
   */
  lemma GetOriginalsResult(w: World, tweets: Table, users: Table)
    requires GetOriginals(w, tweets, users).outcome.Success?
    ensures MissingOriginals(tweets).Success?
    ensures var r := GetOriginals(w, tweets, users);
      var batches := Batches(MissingOriginals(tweets).value);
      && r.world.calls == w.calls + LookupUrls(batches)
      && |r.pages| == |batches|
      && Clean(FromRecords(AllTweets(r.pages))).Success?
      && r.outcome.value.0 == Append(tweets, Clean(FromRecords(AllTweets(r.pages))).value)
      && r.outcome.value.1 == Append(users, FromRecords(AllUsers(r.pages)))
  {
    var batches := Batches(MissingOriginals(tweets).value);
    var loop := ChunkLoop(w, batches, Empty, Empty);
    assert [] + AllTweets(loop.pages) == AllTweets(loop.pages);
    assert [] + AllUsers(loop.pages) == AllUsers(loop.pages);
    assert GetOriginals(w, tweets, users) == Paged(AppendCleaned(loop.outcome, tweets, users), loop.world, loop.pages);
    assert FromRecords([]) == Empty;
    ChunkLoopCollects(w, batches, [], []);
  }

  // ------------------------------------------------------------- the method

  /** `get_original_tweets(df_tweets, df_users)`. */
  method GetOriginalTweets(client: Client, tweets: Table, users: Table) returns (r: Result<(Table, Table), Error>)
    modifies client
    ensures Run(r, client.State()) == var s := GetOriginals(old(client.State()), tweets, users); Run(s.outcome, s.world)
  {
    ghost var start := client.State();
    var ids := MissingOriginals(tweets);
    if ids.Failure? {
      return Failure(ids.error);
    }
    var chunks := Batches(ids.value);
    var found := Empty;
    var foundUsers := Empty;
    ghost var loopGoal := ChunkLoop(start, chunks, found, foundUsers);
    for k := 0 to |chunks|
      invariant ChunkLoop(client.State(), chunks[k..], found, foundUsers).outcome == loopGoal.outcome
      invariant ChunkLoop(client.State(), chunks[k..], found, foundUsers).world == loopGoal.world
    {
      assert chunks[k..][0] == chunks[k] && chunks[k..][1..] == chunks[k + 1..];
      var texts := IdTexts(chunks[k]);
      if texts.Failure? {
        return Failure(texts.error);
      }
      var url := TweetsUrl(texts.value);
      ghost var before := client.State();
      ghost var step := FetchRecords(before, url);
      var body := client.ConnectToEndpoint(url, true);
      assert step.world == client.State();
      if body.Failure? {
        assert step.page == Failure(body.error);
        return Failure(body.error);
      }
      var data := Data(body.value);
      if data.Failure? {
        return Failure(data.error);
      }
      var dataUsers := Users(body.value);
      if dataUsers.Failure? {
        return Failure(dataUsers.error);
      }
      assert step.page == Success(Page(data.value, dataUsers.value, None));
      found := Append(found, FromRecords(data.value));
      foundUsers := Append(foundUsers, FromRecords(dataUsers.value));
    }
    assert chunks[|chunks|..] == [];
    assert loopGoal.outcome == Success((found, foundUsers)) && loopGoal.world == client.State();
    ghost var goal := GetOriginals(start, tweets, users);
    assert goal.outcome == AppendCleaned(loopGoal.outcome, tweets, users) && goal.world == loopGoal.world;
    var frame := new Frame(found);
    var cleaned := CleanInPlace(frame);
    assert client.State() == goal.world;
    if cleaned.Failure? {
      assert Clean(found) == Failure(cleaned.error);
      return Failure(cleaned.error);
    }
    assert Clean(found) == Success(cleaned.value.View());
    return Success((Append(tweets, cleaned.value.View()), Append(users, foundUsers)));
  }
}
