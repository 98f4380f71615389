/**
 * `get_conversations` (twitter_network_search.py:260-283): for every row that
 * has replies and is not itself a retweet, reply or quote, search its
 * conversation; pages that report results are collected, and the cleaned
 * replies and their users are appended to the input frames.
 */
module Conversations {
  import opened Wrappers
  import opened Frames
  import opened Normalise
  import opened Urls
  import opened Fetcher
  import opened Collect

  const ReplyCount := "reply_count"
  const ConversationId := "conversation_id"
  /** `get_conversation_url`'s default page size. */
  const ConversationPage := 100

  /**
   * `tweet['reply_count'] > 0 and tweet['type'] is None`: the `type` column
   * is looked up only when the count is positive.
   */
  function Replied(t: Table, row: Row): (r: Result<bool, Error>)
    ensures ReplyCount !in t.cols ==> r == Failure(KeyError(ReplyCount))
    ensures r == Success(true) <==>
      ReplyCount in t.cols && Cell(row, ReplyCount).Int? && Cell(row, ReplyCount).n > 0
      && TypeColumn in t.cols && Cell(row, TypeColumn) == Null
    ensures r == Success(false) <==>
      ReplyCount in t.cols && (Cell(row, ReplyCount).NaN? || (Cell(row, ReplyCount).Int? && Cell(row, ReplyCount).n <= 0)
        || (Cell(row, ReplyCount).Int? && Cell(row, ReplyCount).n > 0 && TypeColumn in t.cols && Cell(row, TypeColumn) != Null))
  {
    var count :- Column(t, row, ReplyCount);
    var positive :- GreaterThan(count, 0);
    if !positive then Success(false)
    else
      var kind :- Column(t, row, TypeColumn);
      Success(kind == Null)
  }

  /** The outcome of one conversation search: a page when it reported results, None when it reported none. */
  datatype Reply = Reply(found: Result<Option<Page>, Error>, world: World)

  /** Lines 271-274: the search, the `result_count` test, and the records of a non-empty answer. */
  function FetchConversation(w: World, url: string): (s: Reply)
    ensures s.world == Fetch(w, url, true).world
    ensures var f := Fetch(w, url, true);
      f.result.Success? && ResultCount(f.result.value).Success? && ResultCount(f.result.value).value <= 0 ==>
        s.found == Success(None)
    ensures var f := Fetch(w, url, true);
      f.result.Success? && ResultCount(f.result.value).Success? && ResultCount(f.result.value).value > 0
      && Data(f.result.value).Success? && Users(f.result.value).Success? ==>
        s.found == Success(Some(Page(f.result.value.data.value, Users(f.result.value).value, None)))
    ensures var f := Fetch(w, url, true);
      s.found.Success? <==> (f.result.Success? && ResultCount(f.result.value).Success?
        && (ResultCount(f.result.value).value <= 0 || (Data(f.result.value).Success? && Users(f.result.value).Success?)))
    ensures Fetch(w, url, true).result.Failure? ==> s.found == Failure(Fetch(w, url, true).result.error)
  {
    var f := Fetch(w, url, true);
    match f.result
    case Failure(e) => Reply(Failure(e), f.world)
    case Success(body) =>
      match ResultCount(body)
      case Failure(e) => Reply(Failure(e), f.world)
      case Success(count) =>
        if count <= 0 then Reply(Success(None), f.world)
        else
          match Data(body)
          case Failure(e) => Reply(Failure(e), f.world)
          case Success(tweets) =>
            match Users(body)
            case Failure(e) => Reply(Failure(e), f.world)
            case Success(users) => Reply(Success(Some(Page(tweets, users, None))), f.world)
  }

  /** The conversation URL of every row from `i` on that qualifies, in row order. */
  function RootUrls(t: Table, i: nat): seq<string>
    decreases |t.rows| - i
  {
    if i >= |t.rows| then []
    else
      (if Replied(t, t.rows[i]) == Success(true)
       then [ConversationUrl(Text(Cell(t.rows[i], ConversationId)), ConversationPage)] else [])
      + RootUrls(t, i + 1)
  }

  /** The `for` loop of lines 267-276 from row `i` on. */
  function ConversationLoop(w: World, t: Table, i: nat, tweets: Table, users: Table): (r: Paged)
    decreases |t.rows| - i
  {
    if i >= |t.rows| then Paged(Success((tweets, users)), w, [])
    else
      var row := t.rows[i];
      match Replied(t, row)
      case Failure(e) => Paged(Failure(e), w, [])
      case Success(replied) =>
        if !replied then ConversationLoop(w, t, i + 1, tweets, users)
        else
          match Column(t, row, ConversationId)
          case Failure(e) => Paged(Failure(e), w, [])
          case Success(cid) =>
            var f := FetchConversation(w, ConversationUrl(Text(cid), ConversationPage));
            match f.found
            case Failure(e) => Paged(Failure(e), f.world, [])
            case Success(None) => ConversationLoop(f.world, t, i + 1, tweets, users)
            case Success(Some(p)) =>
              var rest := ConversationLoop(f.world, t, i + 1, Append(tweets, FromRecords(p.tweets)), Append(users, FromRecords(p.users)));
              Paged(rest.outcome, rest.world, [p] + rest.pages)
  }

  /** The whole of `get_conversations(df_tweets, df_users)`. */
  function GetConversationsOf(w: World, tweets: Table, users: Table): (r: Paged) {
    var loop := ConversationLoop(w, tweets, 0, Empty, Empty);
    Paged(AppendCleaned(loop.outcome, tweets, users), loop.world, loop.pages)
  }

  // ------------------------------------------------------------------- lemmas

  /** One turn of the loop on a qualifying row whose search succeeded. */
  lemma ConversationLoopUnfold(w: World, t: Table, i: nat, ts: seq<Row>, us: seq<Row>)
    requires i < |t.rows| && Replied(t, t.rows[i]) == Success(true) && ConversationId in t.cols
    requires FetchConversation(w, ConversationUrl(Text(Cell(t.rows[i], ConversationId)), ConversationPage)).found.Success?
    ensures var f := FetchConversation(w, ConversationUrl(Text(Cell(t.rows[i], ConversationId)), ConversationPage));
      match f.found.value
      case None => ConversationLoop(w, t, i, FromRecords(ts), FromRecords(us)) == ConversationLoop(f.world, t, i + 1, FromRecords(ts), FromRecords(us))
      case Some(p) =>
        var rest := ConversationLoop(f.world, t, i + 1, FromRecords(ts + p.tweets), FromRecords(us + p.users));
        ConversationLoop(w, t, i, FromRecords(ts), FromRecords(us)) == Paged(rest.outcome, rest.world, [p] + rest.pages)
  {
    var f := FetchConversation(w, ConversationUrl(Text(Cell(t.rows[i], ConversationId)), ConversationPage));
    if f.found.value.Some? {
      AppendRecords(ts, f.found.value.value.tweets);
      AppendRecords(us, f.found.value.value.users);
    }
  }

  /**
   * The loop searches the conversation of exactly the qualifying rows, in
   * row order, and returns every record of every non-empty answer, in order.
   */
  lemma {:induction false} ConversationLoopCollects(w: World, t: Table, i: nat, ts: seq<Row>, us: seq<Row>)
    requires ConversationLoop(w, t, i, FromRecords(ts), FromRecords(us)).outcome.Success?
    ensures var r := ConversationLoop(w, t, i, FromRecords(ts), FromRecords(us));
      && r.outcome.value == (FromRecords(ts + AllTweets(r.pages)), FromRecords(us + AllUsers(r.pages)))
      && r.world.calls == w.calls + RootUrls(t, i)
      && |r.pages| <= |RootUrls(t, i)|
    decreases |t.rows| - i
  {
    var r := ConversationLoop(w, t, i, FromRecords(ts), FromRecords(us));
    if i >= |t.rows| {
      assert r.pages == [];
      assert ts + AllTweets(r.pages) == ts && us + AllUsers(r.pages) == us;
    } else if Replied(t, t.rows[i]) == Success(false) {
      assert r == ConversationLoop(w, t, i + 1, FromRecords(ts), FromRecords(us));
      ConversationLoopCollects(w, t, i + 1, ts, us);
      assert [] + RootUrls(t, i + 1) == RootUrls(t, i + 1);
    } else {
      var url := ConversationUrl(Text(Cell(t.rows[i], ConversationId)), ConversationPage);
      var f := FetchConversation(w, url);
      ConversationLoopUnfold(w, t, i, ts, us);
      assert RootUrls(t, i) == [url] + RootUrls(t, i + 1);
      match f.found.value
      case None =>
        ConversationLoopCollects(f.world, t, i + 1, ts, us);
        CallsThenRootUrls(w.calls, t, i);
      case Some(p) =>
        var rest := ConversationLoop(f.world, t, i + 1, FromRecords(ts + p.tweets), FromRecords(us + p.users));
        ConversationLoopCollects(f.world, t, i + 1, ts + p.tweets, us + p.users);
        CollectedAfter(ts, us, p, rest.pages);
        CallsThenRootUrls(w.calls, t, i);
    }
  }

  /** After the calls made so far, the searches from a qualifying row on start with that row's. */
  lemma CallsThenRootUrls(calls: seq<string>, t: Table, i: nat)
    requires i < |t.rows| && Replied(t, t.rows[i]) == Success(true)
    ensures calls + RootUrls(t, i)
         == (calls + [ConversationUrl(Text(Cell(t.rows[i], ConversationId)), ConversationPage)]) + RootUrls(t, i + 1)
  {
  }

  /**
   * A successful `get_conversations` searched the conversation of exactly
   * the rows with `reply_count > 0` and `type` None, in row order, and
   * returns the input frames followed by the cleaned replies and their users.
   */
  lemma GetConversationsResult(w: World, tweets: Table, users: Table)
    requires GetConversationsOf(w, tweets, users).outcome.Success?
    ensures var r := GetConversationsOf(w, tweets, users);
      && r.world.calls == w.calls + RootUrls(tweets, 0)
      && Clean(FromRecords(AllTweets(r.pages))).Success?
      && r.outcome.value.0 == Append(tweets, Clean(FromRecords(AllTweets(r.pages))).value)
      && r.outcome.value.1 == Append(users, FromRecords(AllUsers(r.pages)))
  {
    var loop := ConversationLoop(w, tweets, 0, Empty, Empty);
    assert [] + AllTweets(loop.pages) == AllTweets(loop.pages);
    assert [] + AllUsers(loop.pages) == AllUsers(loop.pages);
    assert GetConversationsOf(w, tweets, users) == Paged(AppendCleaned(loop.outcome, tweets, users), loop.world, loop.pages);
    assert FromRecords([]) == Empty;
    ConversationLoopCollects(w, tweets, 0, [], []);
  }

  /** A row qualifies exactly when its reply count is a positive number and its `type` is None. */
  lemma {:induction false} RootUrlsSelect(t: Table, i: nat, j: nat)
    requires i <= j < |t.rows| && ReplyCount in t.cols && TypeColumn in t.cols
    requires Cell(t.rows[j], ReplyCount).Int? && Cell(t.rows[j], ReplyCount).n > 0 && Cell(t.rows[j], TypeColumn) == Null
    ensures ConversationUrl(Text(Cell(t.rows[j], ConversationId)), ConversationPage) in RootUrls(t, i)
    decreases j - i
  {
    if i < j {
      RootUrlsSelect(t, i + 1, j);
    }
  }

  /** Only qualifying rows have their conversation searched. */
  lemma {:induction false} RootUrlsOnlyQualifying(t: Table, i: nat, url: string)
    requires url in RootUrls(t, i)
    ensures exists j :: (i <= j < |t.rows| && Replied(t, t.rows[j]) == Success(true)
                         && url == ConversationUrl(Text(Cell(t.rows[j], ConversationId)), ConversationPage))
    decreases |t.rows| - i
  {
    if i < |t.rows| {
      var here := ConversationUrl(Text(Cell(t.rows[i], ConversationId)), ConversationPage);
      if Replied(t, t.rows[i]) == Success(true) && url == here {
      } else {
        assert url in RootUrls(t, i + 1);
        RootUrlsOnlyQualifying(t, i + 1, url);
      }
    }
  }

  // ------------------------------------------------------------- the method

  /** `get_conversations(df_tweets, df_users)`. */
  method GetConversations(client: Client, tweets: Table, users: Table) returns (r: Result<(Table, Table), Error>)
    modifies client
    ensures Run(r, client.State()) == var s := GetConversationsOf(old(client.State()), tweets, users); Run(s.outcome, s.world)
  {
    ghost var start := client.State();
    var related := Empty;
    var relatedUsers := Empty;
    ghost var loopGoal := ConversationLoop(start, tweets, 0, related, relatedUsers);
    for i := 0 to |tweets.rows|
      invariant ConversationLoop(client.State(), tweets, i, related, relatedUsers).outcome == loopGoal.outcome
      invariant ConversationLoop(client.State(), tweets, i, related, relatedUsers).world == loopGoal.world
    {
      var row := tweets.rows[i];
      var replied := Replied(tweets, row);
      if replied.Failure? {
        return Failure(replied.error);
      }
      if replied.value {
        var cid := Column(tweets, row, ConversationId);
        if cid.Failure? {
          return Failure(cid.error);
        }
        var url := ConversationUrl(Text(cid.value), ConversationPage);
        ghost var step := FetchConversation(client.State(), url);
        var body := client.ConnectToEndpoint(url, true);
        assert step.world == client.State();
        if body.Failure? {
          assert step.found == Failure(body.error);
          return Failure(body.error);
        }
        var count := ResultCount(body.value);
        if count.Failure? {
          return Failure(count.error);
        }
        if count.value > 0 {
          var data := Data(body.value);
          if data.Failure? {
            return Failure(data.error);
          }
          var dataUsers := Users(body.value);
          if dataUsers.Failure? {
            return Failure(dataUsers.error);
          }
          assert step.found == Success(Some(Page(data.value, dataUsers.value, None)));
          related := Append(related, FromRecords(data.value));
          relatedUsers := Append(relatedUsers, FromRecords(dataUsers.value));
        } else {
          assert step.found == Success(None);
        }
      }
    }
    assert loopGoal.outcome == Success((related, relatedUsers)) && loopGoal.world == client.State();
    ghost var goal := GetConversationsOf(start, tweets, users);
    assert goal.outcome == AppendCleaned(loopGoal.outcome, tweets, users) && goal.world == loopGoal.world;
    var frame := new Frame(related);
    var cleaned := CleanInPlace(frame);
    assert client.State() == goal.world;
    if cleaned.Failure? {
      assert Clean(related) == Failure(cleaned.error);
      return Failure(cleaned.error);
    }
    assert Clean(related) == Success(cleaned.value.View());
    return Success((Append(tweets, cleaned.value.View()), Append(users, relatedUsers)));
  }
}
