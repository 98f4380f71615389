/**
 * The endpoint builders: pure string concatenation.  Every builder takes its
 * parameters as the text the f-string would render.
 */
module Urls {
  import opened Frames
  import opened Selection

  const ApiRoot := "https://api.twitter.com/2"
  const TweetFields := "id,author_id,public_metrics,conversation_id,created_at"
  const UserFields := "name,username,profile_image_url"
  const Expansions := "author_id,referenced_tweets.id,in_reply_to_user_id,referenced_tweets.id.author_id"

  /** The field and expansion parameters the tweet endpoints share. */
  const FieldParams := "&tweet.fields=" + TweetFields + "&user.fields=" + UserFields + "&expansions=" + Expansions

  const LookupPrefix := ApiRoot + "/tweets?ids="
  const SearchEndpoint := ApiRoot + "/tweets/search/recent"

  // ------------------------------------------------------------ joining id lists

  /** `sep.join(parts)`. */
  function Join(parts: seq<string>, sep: char): string {
    if |parts| == 0 then ""
    else if |parts| == 1 then parts[0]
    else parts[0] + [sep] + Join(parts[1..], sep)
  }

  /** `s.split(sep)`: the pieces between separators. */
  function Split(s: string, sep: char): (parts: seq<string>)
    ensures |parts| > 0
    decreases |s|
  {
    if sep !in s then [s]
    else
      var k := FirstIndex(s, sep);
      [s[..k]] + Split(s[k + 1..], sep)
  }

  /** The first separator in `a + [sep] + b`, when `a` has none, is the one after `a`. */
  lemma {:induction false} FirstSeparatorAfter(a: string, sep: char, b: string)
    requires sep !in a
    ensures FirstIndex(a + [sep] + b, sep) == |a|
  {
    if |a| > 0 {
      assert (a + [sep] + b)[1..] == a[1..] + [sep] + b;
      FirstSeparatorAfter(a[1..], sep, b);
    }
  }

  /** Splitting a joined list of separator-free parts gives the list back. */
  lemma {:induction false} SplitJoin(parts: seq<string>, sep: char)
    requires |parts| > 0
    requires forall i :: 0 <= i < |parts| ==> sep !in parts[i]
    ensures Split(Join(parts, sep), sep) == parts
  {
    if |parts| > 1 {
      SplitJoin(parts[1..], sep);
      SplitAt(parts[0], sep, Join(parts[1..], sep));
      assert [parts[0]] + parts[1..] == parts;
    }
  }

  /** Splitting at the first separator. */
  lemma SplitAt(a: string, sep: char, b: string)
    requires sep !in a
    ensures Split(a + [sep] + b, sep) == [a] + Split(b, sep)
  {
    var s := a + [sep] + b;
    assert s[|a|] == sep;
    FirstSeparatorAfter(a, sep, b);
    assert s[..|a|] == a;
    assert s[|a| + 1..] == b;
  }

  // ----------------------------------------------------------------- the builders

  /** `tweets_url`: bulk lookup of the given ids (the API takes at most 100). */
  function TweetsUrl(ids: seq<string>): string {
    LookupPrefix + Join(ids, ',') + FieldParams
  }

  /** The ids a bulk-lookup URL asks for, read back from the URL. */
  function LookupIds(url: string): (ids: seq<string>)
    requires |url| >= |LookupPrefix| + |FieldParams|
  {
    Split(url[|LookupPrefix|..|url| - |FieldParams|], ',')
  }

  /** A bulk-lookup URL names exactly the ids it was built from, in order. */
  lemma TweetsUrlRoundTrip(ids: seq<string>)
    requires |ids| > 0
    requires forall i :: 0 <= i < |ids| ==> ',' !in ids[i]
    ensures LookupIds(TweetsUrl(ids)) == ids
  {
    var url := TweetsUrl(ids);
    assert url == LookupPrefix + Join(ids, ',') + FieldParams;
    assert url[|LookupPrefix|..|url| - |FieldParams|] == Join(ids, ',');
    SplitJoin(ids, ',');
  }

  /** `tweet_url`: lookup of one tweet with its language and author. */
  function TweetUrl(tweetId: string): string {
    SinglePrefix + tweetId + SingleFields
  }

  const SinglePrefix := ApiRoot + "/tweets?" + "ids="
  const SingleFields := "&" + "tweet.fields=lang,author_id"

  /** Distinct tweets have distinct single-tweet lookup endpoints. */
  lemma TweetUrlInjective(a: string, b: string)
    ensures TweetUrl(a) == TweetUrl(b) ==> a == b
  {
    if TweetUrl(a) == TweetUrl(b) {
      PathDeterminesId(SinglePrefix, SingleFields, a, b);
    }
  }

  /** The part of a recent-search URL before its optional time bounds. */
  function SearchBase(query: string, maxResults: int): string {
    SearchEndpoint + "?query=" + query + " -is:reply -is:quote"
      + "&max_results=" + IntText(maxResults) + FieldParams
  }

  /** How an f-string renders an optional string: Python's None becomes "None". */
  function OptionText(o: Wrappers.Option<string>): string {
    match o
    case Some(s) => s
    case None => "None"
  }

  /** The query parameter for an optional time bound (nothing when it is absent). */
  function TimeParam(key: string, bound: Wrappers.Option<string>): string {
    if bound.Some? then key + bound.value else ""
  }

  /**
   * `search_url` as written: the `&end_time=` suffix is guarded by the
   * test on `start_time` (line 91), not by one on `end_time`.
   */
  function SearchUrlAsWritten(query: string, maxResults: int, startTime: Wrappers.Option<string>, endTime: Wrappers.Option<string>): (url: string)
    ensures startTime.None? ==> url == SearchBase(query, maxResults)
    ensures startTime.Some? ==> url == SearchBase(query, maxResults) + StartKey + startTime.value + EndKey + OptionText(endTime)
  {
    var url := SearchBase(query, maxResults);
    var url := if startTime.Some? then url + StartKey + startTime.value else url;
    if startTime.Some? then url + EndKey + OptionText(endTime) else url
  }

  /** `search_url` as intended: each bound is added exactly when it is supplied. */
  function SearchUrl(query: string, maxResults: int, startTime: Wrappers.Option<string>, endTime: Wrappers.Option<string>): string {
    SearchBase(query, maxResults) + TimeParam(StartKey, startTime) + TimeParam(EndKey, endTime)
  }

  const StartKey := "&start_time="
  const EndKey := "&end_time="

  /**
   * The corrected URL carries the start bound right after the base exactly
   * when one is supplied, and ends with the end bound exactly when one is
   * supplied.
   */
  lemma SearchUrlBounds(query: string, maxResults: int, startTime: Wrappers.Option<string>, endTime: Wrappers.Option<string>)
    ensures var url := SearchUrl(query, maxResults, startTime, endTime);
      var base := SearchBase(query, maxResults);
      && |base| <= |url| && url[..|base|] == base
      && (startTime.Some? ==> |base + StartKey + startTime.value| <= |url| && url[..|base + StartKey + startTime.value|] == base + StartKey + startTime.value)
      && (startTime.None? ==> url == base + TimeParam(EndKey, endTime))
      && (endTime.Some? ==> |EndKey + endTime.value| <= |url| && url[|url| - |EndKey + endTime.value|..] == EndKey + endTime.value)
      && (endTime.None? ==> url == base + TimeParam(StartKey, startTime))
  {
    TimeParamsShape(SearchBase(query, maxResults), StartKey, startTime, EndKey, endTime);
  }

  /** SearchUrlBounds for any base and any parameter keys. */
  lemma TimeParamsShape(base: string, sk: string, startTime: Wrappers.Option<string>, ek: string, endTime: Wrappers.Option<string>)
    ensures var url := base + TimeParam(sk, startTime) + TimeParam(ek, endTime);
      && |base| <= |url| && url[..|base|] == base
      && (startTime.Some? ==> |base + sk + startTime.value| <= |url| && url[..|base + sk + startTime.value|] == base + sk + startTime.value)
      && (startTime.None? ==> url == base + TimeParam(ek, endTime))
      && (endTime.Some? ==> |ek + endTime.value| <= |url| && url[|url| - |ek + endTime.value|..] == ek + endTime.value)
      && (endTime.None? ==> url == base + TimeParam(sk, startTime))
  {
    var head := base + TimeParam(sk, startTime);
    var tail := TimeParam(ek, endTime);
    var url := head + tail;
    TimeParamHead(base, sk, startTime);
    assert url[..|head|] == head;
    assert url[..|base|] == head[..|base|];
    if endTime.Some? {
      assert tail == ek + endTime.value;
      assert url[|url| - |tail|..] == tail;
    } else {
      assert url == head;
    }
  }

  /** The base followed by the optional start bound. */
  lemma TimeParamHead(base: string, sk: string, startTime: Wrappers.Option<string>)
    ensures var head := base + TimeParam(sk, startTime);
      && |base| <= |head| && head[..|base|] == base
      && (startTime.Some? ==> head == base + sk + startTime.value)
      && (startTime.None? ==> head == base)
  {
    var head := base + TimeParam(sk, startTime);
    assert head[..|base|] == base;
    if startTime.Some? {
      assert base + (sk + startTime.value) == base + sk + startTime.value;
    }
  }

  /** As written, an end bound given without a start bound is silently dropped. */
  lemma SearchUrlAsWrittenDropsEndTime(query: string, maxResults: int, endTime: string)
    ensures SearchUrlAsWritten(query, maxResults, Wrappers.None, Wrappers.Some(endTime))
         == SearchUrlAsWritten(query, maxResults, Wrappers.None, Wrappers.None)
    ensures SearchUrl(query, maxResults, Wrappers.None, Wrappers.Some(endTime))
         != SearchUrl(query, maxResults, Wrappers.None, Wrappers.None)
  {
    var withEnd := SearchUrl(query, maxResults, Wrappers.None, Wrappers.Some(endTime));
    assert |withEnd| > |SearchUrl(query, maxResults, Wrappers.None, Wrappers.None)|;
  }

  /** As written, a start bound given without an end bound sends the literal `end_time=None`. */
  lemma SearchUrlAsWrittenSendsNone(query: string, maxResults: int, startTime: string)
    ensures SearchUrlAsWritten(query, maxResults, Wrappers.Some(startTime), Wrappers.None)
         == SearchUrl(query, maxResults, Wrappers.Some(startTime), Wrappers.None) + EndKey + "None"
  {
    var base := SearchBase(query, maxResults);
    assert SearchUrl(query, maxResults, Wrappers.Some(startTime), Wrappers.None) == base + (StartKey + startTime) + "";
    assert base + (StartKey + startTime) + "" == base + StartKey + startTime;
  }

  /** The two agree whenever both bounds or neither are supplied, as in every call the program makes. */
  lemma SearchUrlAgreement(query: string, maxResults: int, startTime: Wrappers.Option<string>, endTime: Wrappers.Option<string>)
    requires startTime.Some? == endTime.Some?
    ensures SearchUrlAsWritten(query, maxResults, startTime, endTime) == SearchUrl(query, maxResults, startTime, endTime)
  {
    var base := SearchBase(query, maxResults);
    if startTime.Some? {
      var a, b := startTime.value, endTime.value;
      assert SearchUrl(query, maxResults, startTime, endTime) == base + (StartKey + a) + (EndKey + b);
      assert OptionText(endTime) == b;
      assert base + (StartKey + a) + (EndKey + b) == base + StartKey + a + EndKey + b;
    } else {
      assert SearchUrl(query, maxResults, startTime, endTime) == base + "" + "";
      assert base + "" + "" == base;
    }
  }

  /** The page after `token`: the search URL with the pagination cursor appended. */
  function NextPageUrl(url: string, token: string): string {
    url + "&next_token=" + token
  }

  /** `replies_to_user_url`: replies to, and retweets of, one user. */
  function RepliesToUserUrl(userId: string, maxResults: int): string {
    RepliesPrefix + userId + (RepliesMiddle + userId + RepliesParams(maxResults))
  }

  const RepliesPrefix := SearchEndpoint + "?query=to%3A"
  const RepliesMiddle := "%20OR%20retweets_of%3A"

  /** The parameters after the reply query: a smaller tweet field list than the other searches. */
  function RepliesParams(maxResults: int): string {
    "&max_results=" + IntText(maxResults)
      + "&tweet.fields=" + "id,author_id,public_metrics"
      + "&user.fields=" + UserFields
      + "&expansions=" + Expansions
  }

  /** For a fixed page size, distinct users have distinct reply-search endpoints. */
  lemma RepliesToUserUrlInjective(a: string, b: string, maxResults: int)
    ensures RepliesToUserUrl(a, maxResults) == RepliesToUserUrl(b, maxResults) ==> a == b
  {
    var rest := RepliesParams(maxResults);
    if RepliesToUserUrl(a, maxResults) == RepliesToUserUrl(b, maxResults) {
      SameLengthId(RepliesPrefix, a, b, RepliesMiddle + a + rest, RepliesMiddle + b + rest);
    }
  }

  /** Equal texts that share a prefix agree on an id of the same length after it. */
  lemma SameLengthId(prefix: string, a: string, b: string, sa: string, sb: string)
    requires prefix + a + sa == prefix + b + sb
    requires |sa| - |a| == |sb| - |b|
    ensures a == b
  {
    var u := prefix + a + sa;
    assert a == u[|prefix|..|prefix| + |a|];
    assert b == (prefix + b + sb)[|prefix|..|prefix| + |b|];
  }

  /** A path `<ApiRoot><middle><id><suffix>` determines its id. */
  lemma PathDeterminesId(prefix: string, suffix: string, a: string, b: string)
    requires prefix + a + suffix == prefix + b + suffix
    ensures a == b
  {
    var u := prefix + a + suffix;
    assert |a| == |b|;
    assert a == u[|prefix|..|prefix| + |a|];
    assert b == (prefix + b + suffix)[|prefix|..|prefix| + |b|];
  }

  /** `liking_users_url`. */
  function LikingUsersUrl(tweetId: string): string {
    ApiRoot + "/tweets/" + tweetId + "/liking_users"
  }

  /** `retweeting_users_url`. */
  function RetweetingUsersUrl(tweetId: string): string {
    ApiRoot + "/tweets/" + tweetId + "/retweeted_by"
  }

  /** `user_url`. */
  function UserUrl(userId: string): string {
    ApiRoot + "/users/" + userId
  }

  /** Distinct tweets have distinct liking-users and retweeting-users endpoints, and the two never coincide. */
  lemma RelationshipUrlsDistinct(a: string, b: string)
    ensures LikingUsersUrl(a) == LikingUsersUrl(b) ==> a == b
    ensures RetweetingUsersUrl(a) == RetweetingUsersUrl(b) ==> a == b
    ensures LikingUsersUrl(a) != RetweetingUsersUrl(b)
  {
    if LikingUsersUrl(a) == LikingUsersUrl(b) {
      PathDeterminesId(ApiRoot + "/tweets/", "/liking_users", a, b);
    }
    if RetweetingUsersUrl(a) == RetweetingUsersUrl(b) {
      PathDeterminesId(ApiRoot + "/tweets/", "/retweeted_by", a, b);
    }
    var l, r := LikingUsersUrl(a), RetweetingUsersUrl(b);
    assert l[|l| - 1] == 's';
    assert r[|r| - 1] == 'y';
    assert |l| == |r| ==> l[|l| - 1] != r[|r| - 1];
  }

  /** Distinct users have distinct lookup endpoints. */
  lemma UserUrlInjective(a: string, b: string)
    ensures UserUrl(a) == UserUrl(b) ==> a == b
  {
    if UserUrl(a) == UserUrl(b) {
      PathDeterminesId(ApiRoot + "/users/", "", a, b);
    }
  }

  /** `get_conversation_url`: a recent search for one conversation. */
  function ConversationUrl(conversationId: string, maxResults: int): string {
    ConversationPrefix + conversationId + PageParams(maxResults)
  }

  const ConversationPrefix := SearchEndpoint + "?query=conversation_id:"

  /** The page size and the shared field lists. */
  function PageParams(maxResults: int): string {
    "&max_results=" + IntText(maxResults)
      + "&tweet.fields=" + TweetFields
      + "&user.fields=" + UserFields
      + "&expansions=" + Expansions
  }

  /** For a fixed page size, distinct conversations have distinct search endpoints. */
  lemma ConversationUrlInjective(a: string, b: string, maxResults: int)
    ensures ConversationUrl(a, maxResults) == ConversationUrl(b, maxResults) ==> a == b
  {
    if ConversationUrl(a, maxResults) == ConversationUrl(b, maxResults) {
      PathDeterminesId(ConversationPrefix, PageParams(maxResults), a, b);
    }
  }
}
