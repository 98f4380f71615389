/**
 * `get_relationship` and `get_likes` (twitter_network_search.py:286-315):
 * the users related to a tweet (its likers, or its retweeters) are fetched
 * and appended to a relationship frame, each row tagged with the tweet's id.
 */
module Relationships {
  import opened Wrappers
  import opened Frames
  import opened Urls
  import opened Fetcher

  const RelationshipTweetId := "relationship_tweet_id"
  const LikeCount := "like_count"

  /** `pd.DataFrame(relationships).assign(relationship_tweet_id=tweet_id)`. */
  function Tag(records: seq<Row>, tweetId: Value): (t: Table)
    ensures |t.rows| == |records|
    ensures forall i :: 0 <= i < |records| ==> t.rows[i] == records[i][RelationshipTweetId := tweetId]
    ensures t.cols == FromRecords(records).cols + {RelationshipTweetId}
    ensures WellFormed(t)
  {
    AssignColumn(FromRecords(records), RelationshipTweetId, seq(|records|, _ => tweetId))
  }

  /**
   * The `print` of line 292 still evaluates `errors[0]['title']` and
   * `errors[0]['detail']`, which raise on an empty list or a missing key.
   */
  function ReportError(errors: seq<ApiError>): (r: Result<bool, Error>)
    ensures r.Success? <==> |errors| > 0 && errors[0].title.Some? && errors[0].detail.Some?
    ensures |errors| == 0 ==> r == Failure(IndexError)
  {
    if |errors| == 0 then Failure(IndexError)
    else if errors[0].title.None? then Failure(KeyError("title"))
    else if errors[0].detail.None? then Failure(KeyError("detail"))
    else Success(true)
  }

  /**
   * `get_relationship(url, df_relationship, tweet_id)`: an answer with
   * `errors` or with no results leaves the frame as it is; otherwise the
   * related records, tagged with the tweet id, are appended to it.
   */
  function Relationship(w: World, url: string, acc: Table, tweetId: Value): (r: Run<Table>)
    ensures r.world == Fetch(w, url, true).world
    ensures Fetch(w, url, true).result.Failure? ==> r.outcome == Failure(Fetch(w, url, true).result.error)
    ensures var f := Fetch(w, url, true);
      r.outcome.Success? <==> (f.result.Success? &&
        if f.result.value.errors.Some? then ReportError(f.result.value.errors.value).Success?
        else ResultCount(f.result.value).Success? && (ResultCount(f.result.value).value <= 0 || f.result.value.data.Some?))
    ensures var f := Fetch(w, url, true);
      f.result.Success? && f.result.value.errors.Some? && ReportError(f.result.value.errors.value).Success? ==>
        r.outcome == Success(acc)
    ensures var f := Fetch(w, url, true);
      f.result.Success? && f.result.value.errors.None? && ResultCount(f.result.value).Success? && ResultCount(f.result.value).value <= 0 ==>
        r.outcome == Success(acc)
    ensures var f := Fetch(w, url, true);
      f.result.Success? && f.result.value.errors.None? && ResultCount(f.result.value).Success? && ResultCount(f.result.value).value > 0
      && f.result.value.data.Some? ==>
        r.outcome == Success(Append(acc, Tag(f.result.value.data.value, tweetId)))
    ensures r.outcome.Success? ==> |acc.rows| <= |r.outcome.value.rows| && r.outcome.value.rows[..|acc.rows|] == acc.rows
    ensures r.outcome.Success? && WellFormed(acc) ==> WellFormed(r.outcome.value)
  {
    var f := Fetch(w, url, true);
    match f.result
    case Failure(e) => Run(Failure(e), f.world)
    case Success(body) =>
      if body.errors.Some? then
        match ReportError(body.errors.value)
        case Failure(e) => Run(Failure(e), f.world)
        case Success(_) => Run(Success(acc), f.world)
      else
        match ResultCount(body)
        case Failure(e) => Run(Failure(e), f.world)
        case Success(count) =>
          if count <= 0 then Run(Success(acc), f.world)
          else
            match Data(body)
            case Failure(e) => Run(Failure(e), f.world)
            case Success(records) =>
              var tagged := Append(acc, Tag(records, tweetId));
              assert tagged.rows[..|acc.rows|] == acc.rows;
              Run(Success(tagged), f.world)
  }

  /** `tweet['like_count'] >= 1`. */
  function Liked(t: Table, row: Row): (r: Result<bool, Error>)
    ensures LikeCount !in t.cols ==> r == Failure(KeyError(LikeCount))
    ensures r.Success? <==> LikeCount in t.cols && (Cell(row, LikeCount).Int? || Cell(row, LikeCount).NaN?)
    ensures r == Success(true) <==> LikeCount in t.cols && Cell(row, LikeCount).Int? && Cell(row, LikeCount).n >= 1
  {
    var count :- Column(t, row, LikeCount);
    AtLeast(count, 1)
  }

  /** The `liking_users` URL of every row from `i` on with at least one like, in row order. */
  function LikeUrls(t: Table, i: nat): seq<string>
    decreases |t.rows| - i
  {
    if i >= |t.rows| then []
    else
      (if Liked(t, t.rows[i]) == Success(true) then [LikingUsersUrl(Text(Cell(t.rows[i], IdColumn)))] else [])
      + LikeUrls(t, i + 1)
  }

  /** The `for` loop of lines 309-313 from row `i` on. */
  function LikesLoop(w: World, t: Table, i: nat, acc: Table): (r: Run<Table>)
    decreases |t.rows| - i
  {
    if i >= |t.rows| then Run(Success(acc), w)
    else
      var row := t.rows[i];
      match Liked(t, row)
      case Failure(e) => Run(Failure(e), w)
      case Success(liked) =>
        if !liked then LikesLoop(w, t, i + 1, acc)
        else
          match Column(t, row, IdColumn)
          case Failure(e) => Run(Failure(e), w)
          case Success(id) =>
            var rel := Relationship(w, LikingUsersUrl(Text(id)), acc, id);
            match rel.outcome
            case Failure(e) => Run(Failure(e), rel.world)
            case Success(next) => LikesLoop(rel.world, t, i + 1, next)
  }

  /** `get_likes(df_tweets)`. */
  function Likes(w: World, tweets: Table): Run<Table> {
    LikesLoop(w, tweets, 0, Empty)
  }

  // ------------------------------------------------------------------- lemmas

  /** The id of a row from `i` on that has at least one like. */
  predicate LikedId(t: Table, i: nat, x: Value) {
    exists j :: i <= j < |t.rows| && Liked(t, t.rows[j]) == Success(true) && Cell(t.rows[j], IdColumn) == x
  }

  /**
   * A successful loop calls `get_relationship` once per row with
   * `like_count >= 1`, in row order; it keeps the accumulated rows in front;
   * and every row it adds is tagged with the id of one of those tweets.
   */
  lemma {:induction false} LikesLoopResult(w: World, t: Table, i: nat, acc: Table)
    requires LikesLoop(w, t, i, acc).outcome.Success?
    ensures var r := LikesLoop(w, t, i, acc);
      && r.world.calls == w.calls + LikeUrls(t, i)
      && |acc.rows| <= |r.outcome.value.rows| && r.outcome.value.rows[..|acc.rows|] == acc.rows
      && forall k :: |acc.rows| <= k < |r.outcome.value.rows| ==>
           RelationshipTweetId in r.outcome.value.rows[k] && LikedId(t, i, r.outcome.value.rows[k][RelationshipTweetId])
    decreases |t.rows| - i
  {
    var r := LikesLoop(w, t, i, acc);
    if i < |t.rows| {
      var row := t.rows[i];
      if Liked(t, row) == Success(false) {
        assert r == LikesLoop(w, t, i + 1, acc);
        LikesLoopResult(w, t, i + 1, acc);
        assert LikeUrls(t, i) == [] + LikeUrls(t, i + 1);
        LikedIdLater(t, i);
      } else {
        var id := Cell(row, IdColumn);
        var url := LikingUsersUrl(Text(id));
        var rel := Relationship(w, url, acc, id);
        var next := rel.outcome.value;
        assert r == LikesLoop(rel.world, t, i + 1, next);
        LikesLoopResult(rel.world, t, i + 1, next);
        CallsThenLikeUrls(w.calls, t, i);
        LikedIdLater(t, i);
        RelationshipTags(w, url, acc, id);
        var out := r.outcome.value;
        assert out.rows[..|next.rows|] == next.rows;
        forall k | |acc.rows| <= k < |out.rows|
          ensures RelationshipTweetId in out.rows[k] && LikedId(t, i, out.rows[k][RelationshipTweetId])
        {
          if k < |next.rows| {
            assert out.rows[k] == next.rows[k];
            assert LikedId(t, i, id) by {
              assert Liked(t, t.rows[i]) == Success(true) && Cell(t.rows[i], IdColumn) == id;
            }
          }
        }
      }
    } else {
      assert r.outcome.value == acc;
    }
  }

  /** After the calls made so far, the likers fetched from a liked row on start with that row's. */
  lemma CallsThenLikeUrls(calls: seq<string>, t: Table, i: nat)
    requires i < |t.rows| && Liked(t, t.rows[i]) == Success(true)
    ensures calls + LikeUrls(t, i) == (calls + [LikingUsersUrl(Text(Cell(t.rows[i], IdColumn)))]) + LikeUrls(t, i + 1)
  {
  }

  /** A tweet liked from row `i + 1` on is liked from row `i` on. */
  lemma LikedIdLater(t: Table, i: nat)
    ensures forall x :: LikedId(t, i + 1, x) ==> LikedId(t, i, x)
  {
  }

  /** Every row a relationship call adds carries the tweet id. */
  lemma RelationshipTags(w: World, url: string, acc: Table, tweetId: Value)
    requires Relationship(w, url, acc, tweetId).outcome.Success?
    ensures var out := Relationship(w, url, acc, tweetId).outcome.value;
      forall k :: |acc.rows| <= k < |out.rows| ==> RelationshipTweetId in out.rows[k] && out.rows[k][RelationshipTweetId] == tweetId
  {
  }

  /** Every row with at least one like has its likers fetched. */
  lemma {:induction false} LikeUrlsSelect(t: Table, i: nat, j: nat)
    requires i <= j < |t.rows| && Liked(t, t.rows[j]) == Success(true)
    ensures LikingUsersUrl(Text(Cell(t.rows[j], IdColumn))) in LikeUrls(t, i)
    decreases j - i
  {
    if i < j {
      LikeUrlsSelect(t, i + 1, j);
    }
  }

  /** Only rows with at least one like have their likers fetched. */
  lemma {:induction false} LikeUrlsOnlyLiked(t: Table, i: nat, url: string)
    requires url in LikeUrls(t, i)
    ensures exists j :: (i <= j < |t.rows| && Liked(t, t.rows[j]) == Success(true)
                         && url == LikingUsersUrl(Text(Cell(t.rows[j], IdColumn))))
    decreases |t.rows| - i
  {
    if i < |t.rows| {
      var here := LikingUsersUrl(Text(Cell(t.rows[i], IdColumn)));
      if Liked(t, t.rows[i]) == Success(true) && url == here {
      } else {
        assert url in LikeUrls(t, i + 1);
        LikeUrlsOnlyLiked(t, i + 1, url);
      }
    }
  }

  // ------------------------------------------------------------- the methods

  /** `get_relationship(url, df_relationship, tweet_id)`. */
  method GetRelationship(client: Client, url: string, acc: Table, tweetId: Value) returns (r: Result<Table, Error>)
    modifies client
    ensures Run(r, client.State()) == Relationship(old(client.State()), url, acc, tweetId)
  {
    var body := client.ConnectToEndpoint(url, true);
    if body.Failure? {
      return Failure(body.error);
    }
    if body.value.errors.Some? {
      var report := ReportError(body.value.errors.value);
      if report.Failure? {
        return Failure(report.error);
      }
      return Success(acc);
    }
    var count := ResultCount(body.value);
    if count.Failure? {
      return Failure(count.error);
    }
    if count.value > 0 {
      var records := Data(body.value);
      if records.Failure? {
        return Failure(records.error);
      }
      return Success(Append(acc, Tag(records.value, tweetId)));
    }
    return Success(acc);
  }

  /** `get_likes(df_tweets)`. */
  method GetLikes(client: Client, tweets: Table) returns (r: Result<Table, Error>)
    modifies client
    ensures Run(r, client.State()) == Likes(old(client.State()), tweets)
  {
    ghost var goal := Likes(client.State(), tweets);
    var likes := Empty;
    for i := 0 to |tweets.rows|
      invariant LikesLoop(client.State(), tweets, i, likes) == goal
    {
      var row := tweets.rows[i];
      var liked := Liked(tweets, row);
      if liked.Failure? {
        return Failure(liked.error);
      }
      if liked.value {
        var id := Column(tweets, row, IdColumn);
        if id.Failure? {
          return Failure(id.error);
        }
        var updated := GetRelationship(client, LikingUsersUrl(Text(id.value)), likes, id.value);
        if updated.Failure? {
          return Failure(updated.error);
        }
        likes := updated.value;
      }
    }
    return Success(likes);
  }
}
