# twitter-network-search, modelled in Dafny

`twitter_network_search.py` is a client for the Twitter API v2. It searches
recent tweets and pages through the results. It fetches the originals of
retweets and the replies in a conversation, and it collects the users who
liked a tweet. On the way it flattens the nested JSON fields of tweets into
table columns.

This project models the logic of that client:

- **The normaliser** (`extract_public_metrics`, `extract_referenced_tweets`,
  `clean_tweets_dataframe`).
  - Pure functions in `Normalise` state what each step returns.
  - A `Frame` class and the `…InPlace` methods follow the source's in-place
    column assignment.
- **The URL builders** (`Urls`).
- **`connect_to_endpoint`** (`Fetcher`). It runs over an injected HTTP oracle:
  a queue of responses. A `Client` object holds the queue and logs every
  endpoint call, HTTP request and sleep.
- **The paginated search** (`Pagination`).
- **Original lookup** (`Originals`). It covers id selection, `dict.fromkeys`
  de-duplication and batches of 100; the sequence logic is in `Selection`.
- **Conversation crawling** (`Conversations`).
- **Likes** (`get_relationship` / `get_likes`, in `Relationships`).

A pandas DataFrame is a `Frames.Table`: a set of column names and a
sequence of rows. Each row maps column names to cells. A row with no entry
for one of the table's columns reads as NaN there. Python's `None` is
`Value.Null`.

Within the shapes the model gives its cells (see "## Left out" for the nested
fields), every exception the modelled code can raise is a `Failure` of a `Result`:

- a missing key or column is `KeyError`;
- a subscript on the wrong kind of value is `TypeError`;
- `x[0]` on an empty list is `IndexError`;
- a non-200 status is `HttpError`;
- an exhausted oracle is `ConnectionError`.

Each loop of the source is a `method` with a `for` or `while` loop. Its
contract ties the outcome and the new state to a pure function of the
starting state: `AssignMetrics` for the metric loop of the normaliser, and
`PageLoop`, `ChunkLoop`, `ConversationLoop` or `LikesLoop` for the crawling
loops. The lemmas about those functions give what the source
promises:

- which endpoints are called, in which order;
- that records are collected in fetch order;
- when a loop stops.

## Model

| member | source | states |
|---|---|---|
| `Frames.Column` | twitter_network_search.py:268 | `row[c]` raises KeyError exactly when the frame has no column `c`; otherwise it yields the cell, NaN when the row lacks it |
| `Frames.FromRecords` | twitter_network_search.py:209-210 | `pd.DataFrame(records)` keeps the records in order; its columns are exactly the keys found in some record |
| `Frames.Append` | twitter_network_search.py:219-220 | `append(…, ignore_index=True)` puts the second frame's rows after the first's and unites the columns |
| `Frames.AppendRecords` | twitter_network_search.py:219-220 | appending the frames of two record lists gives the frame of the joined list |
| `Frames.AssignColumn` | twitter_network_search.py:21 | `df[name] = values` adds `name` to the columns and to every row's keys; row i holds the i-th value there, keeps every other cell, and the frame stays well formed |
| `Frames.DropColumn` | twitter_network_search.py:23 | `drop(columns=[name])` removes `name` from the columns and from every row's keys, keeps every other cell, and the frame stays well formed |
| `Frames.GreaterThan` | twitter_network_search.py:268 | `v > k` is true exactly for a number above k; NaN compares false; any other value raises TypeError |
| `Frames.AtLeast` | twitter_network_search.py:311 | `v >= k` behaves the same way for `>=` |
| `Normalise.Apply` | twitter_network_search.py:21 | `column.apply(f)` succeeds exactly when f succeeds on every row; the i-th result is f of row i |
| `Normalise.MetricOf` | twitter_network_search.py:21 | `x[name]` succeeds exactly on a metrics object and one of the four counter names |
| `Normalise.ExtractPublicMetrics` | twitter_network_search.py:17-25 | without a `public_metrics` column the frame is returned unchanged |
| `Normalise.FlatMetrics` | twitter_network_search.py:20-23 | the flattened row has the four counters of its metrics object, no `public_metrics`, and every other cell unchanged |
| `Normalise.AssignMetricsPrefix` | twitter_network_search.py:20-21 | when every row holds a metrics object, each round of the loop assigns the next counter in every row |
| `Normalise.MetricsFlattened` | twitter_network_search.py:17-25 | with `public_metrics` present, the step raises exactly when some row has no metrics object; otherwise the columns trade `public_metrics` for the four counters and every row is `FlatMetrics` of its input |
| `Normalise.AssignMetricsFailure` | twitter_network_search.py:20-21 | once a round of the metric loop raises, the whole loop raises with that error |
| `Normalise.RefType` | twitter_network_search.py:32 | `x[0]['type'] if isinstance(x, list) else None` raises exactly on an empty list |
| `Normalise.RefId` | twitter_network_search.py:33 | `x[0]['id'] if isinstance(x, list) else None` raises exactly on an empty list |
| `Normalise.ExtractReferencedTweets` | twitter_network_search.py:31-37 | without a `referenced_tweets` column the frame is returned unchanged |
| `Normalise.ReferenceColumns` | twitter_network_search.py:31-33 | the two assignments succeed exactly when no row holds an empty list; they add `type` and `referenced_tweet_id`, keep the list column and its cells, and each row without the list is `FlatReference` of its input |
| `Normalise.FlatReference` | twitter_network_search.py:32-35 | `type` and `referenced_tweet_id` come from the first reference, later ones are dropped, or both are None when the cell is not a list; the list goes and every other cell is unchanged |
| `Normalise.ReferencesFlattened` | twitter_network_search.py:31-37 | with `referenced_tweets` present, the step raises exactly when a row holds an empty list; otherwise the columns trade the list for `type` and `referenced_tweet_id` and every row is `FlatReference` of its input |
| `Normalise.Clean` | twitter_network_search.py:39-46 | a cleaned frame has neither nested column and as many rows as its input; it stays well formed; a frame with neither nested column, empty ones included, is returned unchanged |
| `Normalise.CleanIdempotent` | twitter_network_search.py:39-46 | cleaning a cleaned frame changes nothing |
| `Normalise.Frame.constructor` | twitter_network_search.py:13 | a frame object holds the given table |
| `Normalise.Frame.Assign` | twitter_network_search.py:21 | assigning a column in place turns the frame into `AssignColumn` of its old table |
| `Normalise.Frame.Drop` | twitter_network_search.py:23 | `drop` returns a fresh frame holding `DropColumn` of this one and leaves this one as it is |
| `Normalise.ExtractPublicMetricsInPlace` | twitter_network_search.py:13-25 | succeeds exactly when `ExtractPublicMetrics` does, with its value or its error; without the column it returns the same frame untouched; otherwise, on success, the passed frame ends up holding the four counters and the result is a fresh frame; on failure the passed frame holds the counters of the rounds before the one that raised |
| `Normalise.ExtractReferencedTweetsInPlace` | twitter_network_search.py:27-37 | succeeds exactly when `ExtractReferencedTweets` does, with its value or its error; without the column the same frame is returned untouched; on success the passed frame holds `ReferenceColumns` of its old table, the list still in place, and the result is a fresh frame; a failure leaves the passed frame as it was |
| `Normalise.CleanInPlace` | twitter_network_search.py:39-46 | succeeds exactly when `Clean` does, with its value or its error; with neither nested column the same frame is returned untouched; on success the passed frame holds the four counters when it had `public_metrics`, or else `ReferenceColumns` of its old table, and the result is a fresh frame |
| `Urls.SplitJoin` | twitter_network_search.py:53 | splitting `sep.join(parts)` at `sep` gives back the parts when none of them contains `sep` |
| `Urls.TweetsUrlRoundTrip` | twitter_network_search.py:48-58 | the ids read back from a bulk-lookup URL are the ids it was built from, in order |
| `Urls.TweetUrlInjective` | twitter_network_search.py:60-70 | distinct tweet ids give distinct single-tweet URLs |
| `Urls.SearchUrlAsWritten` | twitter_network_search.py:72-94 | `search_url` as written: both time suffixes are guarded by the test on `start_time` |
| `Urls.SearchUrlBounds` | twitter_network_search.py:85-91 | the corrected URL starts with the query and fields; the start bound follows exactly when one is given, and the URL ends with the end bound exactly when one is given |
| `Urls.SearchUrlAsWrittenDropsEndTime` | twitter_network_search.py:89-92 | as written, an end bound without a start bound is dropped: the URL is the one with no bounds, while the corrected URL differs from it |
| `Urls.SearchUrlAsWrittenSendsNone` | twitter_network_search.py:89-92 | as written, a start bound without an end bound sends the literal `&end_time=None` |
| `Urls.SearchUrlAgreement` | twitter_network_search.py:89-92 | the as-written and corrected URLs agree when both bounds or neither are given |
| `Urls.RepliesToUserUrlInjective` | twitter_network_search.py:96-112 | at a fixed page size, distinct users give distinct reply-search URLs |
| `Urls.RelationshipUrlsDistinct` | twitter_network_search.py:115-125 | the liking-users and retweeted-by URLs are each injective in the tweet id and never coincide |
| `Urls.UserUrlInjective` | twitter_network_search.py:127-129 | distinct users give distinct user URLs |
| `Urls.ConversationUrlInjective` | twitter_network_search.py:131-145 | at a fixed page size, distinct conversations give distinct search URLs |
| `Fetcher.Fetch` | twitter_network_search.py:155-179 | one call, and one request or, after a 429 with waiting allowed, two requests with one sleep of the reset delay plus 10 s in between; the call succeeds exactly when the final response is 200, with its body; otherwise it raises the HTTP error, or a KeyError when the first response lacks the reset header |
| `Fetcher.NoRetryWithoutWait` | twitter_network_search.py:165-179 | without `wait_on_timeout` there is exactly one request and no sleep, and success means the first answer was 200 |
| `Fetcher.RateLimitedFirstAnswer` | twitter_network_search.py:165-179 | a 429 raises when not waiting; when waiting, the outcome is decided by the retry's status, after a sleep of reset plus 10 s |
| `Fetcher.FetchConsumes` | twitter_network_search.py:155-179 | a successful call consumes at least one response |
| `Fetcher.Users` | twitter_network_search.py:210 | `json_response['includes']['users']` succeeds exactly when both keys are present |
| `Fetcher.ResultCount` | twitter_network_search.py:272 | `json_response['meta']['result_count']` succeeds exactly when both keys are present |
| `Fetcher.Client.constructor` | twitter_network_search.py:156 | a client starts with the given responses and empty logs |
| `Fetcher.Client.Get` | twitter_network_search.py:156 | one GET hands out the next response, if any, and logs the request |
| `Fetcher.Client.Sleep` | twitter_network_search.py:169 | `time.sleep` logs its duration and changes nothing else |
| `Fetcher.Client.ConnectToEndpoint` | twitter_network_search.py:155-179 | the outcome and the client's new state are exactly `Fetch` of its old state |
| `Pagination.ReadPage` | twitter_network_search.py:209-214 | a page is read exactly when `data`, `includes.users` and `meta` are present, in that lookup order, with the token from `meta` |
| `Pagination.FetchPage` | twitter_network_search.py:207-210 | fetching a page leaves the world `connect_to_endpoint` leaves, with the URL logged; after a successful call the page is `ReadPage` of the body, and a failed call raises its error; a page that was read consumed a response |
| `Pagination.PageLoopCollects` | twitter_network_search.py:214-220 | the frames the loop returns hold the starting records followed by every page's records, in fetch order |
| `Pagination.PageLoopFetchesWhile` | twitter_network_search.py:214 | page i was fetched only because the token before it was present and fewer than `num_results` tweets had been collected |
| `Pagination.PageLoopStops` | twitter_network_search.py:214 | on exit, no token is left or at least `num_results` tweets were collected |
| `Pagination.PageLoopCalls` | twitter_network_search.py:214-217 | the loop requests `url&next_token=<token>` once per page, each with the token of the page before |
| `Pagination.SearchResult` | twitter_network_search.py:205-224 | from any first URL, the corrected or the as-written one: a successful search read at least one page; it returns the cleaned frame of all tweet records and the frame of all user records, in fetch order; it called the first URL and then each next-page URL; and it stopped as the loop condition says |
| `Pagination.SearchAsWrittenAgreement` | twitter_network_search.py:205 | with both time bounds or neither, the search on the corrected URL is the search on the URL the source builds |
| `Pagination.SearchAndPaginate` | twitter_network_search.py:192-224 | the outcome and the client's new state are exactly `Search` of its old state, which starts from the corrected search URL |
| `Selection.FirstIndex` | twitter_network_search.py:241 | the first position at which an element occurs |
| `Selection.Dedup` | twitter_network_search.py:241 | `list(dict.fromkeys(ids))` has no duplicates, exactly the elements of `ids`, and is no longer than `ids` |
| `Selection.DedupKeepsFirstOccurrenceOrder` | twitter_network_search.py:241 | the de-duplicated list is in the order of the elements' first occurrences |
| `Selection.Chunks` | twitter_network_search.py:244 | every batch has between 1 and 100 ids, and there are ceil(n/100) of them |
| `Selection.ChunksFlatten` | twitter_network_search.py:244 | concatenating the batches gives back the ids in order |
| `Selection.ChunkIsSlice` | twitter_network_search.py:244 | batch x is the slice `ids[100x : 100x+100]` |
| `Selection.ChunksFull` | twitter_network_search.py:244 | every batch but the last holds exactly 100 ids |
| `Originals.Targets` | twitter_network_search.py:238 | an id is selected exactly when some row is a retweet of it and no known row has it as its id; there are no more ids than rows |
| `Originals.TargetsConcat` | twitter_network_search.py:238 | the ids selected from two runs of rows are those of the first run followed by those of the second, so the selection keeps row order |
| `Originals.TargetsOne` | twitter_network_search.py:238 | one row contributes its `referenced_tweet_id` exactly when it is a retweet of a tweet no known row has as its id |
| `Originals.MissingOriginals` | twitter_network_search.py:238 | the selected ids are exactly the `referenced_tweet_id` values of `retweeted` rows whose target is not an `id` of the table; a missing `referenced_tweet_id`, `id` or `type` column raises KeyError, in that order |
| `Originals.Batches` | twitter_network_search.py:241-244 | the batches concatenate to the de-duplicated ids, have no duplicates, hold every selected id, number ceil(n/100) and hold 1 to 100 ids each |
| `Originals.IdTexts` | twitter_network_search.py:53 | `','.join(chunk)` raises TypeError unless every id is a string |
| `Originals.FetchRecords` | twitter_network_search.py:248-251 | a lookup is one `connect_to_endpoint` call, waiting on 429; it succeeds exactly when the call, `data` and `includes.users` succeed, and the page is that `data` and those users; a failed call raises its error |
| `Originals.ChunkLoopCollects` | twitter_network_search.py:246-251 | the batch loop makes one lookup per batch, in order, and returns every record of every answer, in order |
| `Originals.GetOriginalsResult` | twitter_network_search.py:229-258 | a successful run looked up exactly the batches of the de-duplicated missing originals, one call each; it returns the inputs followed by the cleaned originals and their users |
| `Originals.GetOriginalTweets` | twitter_network_search.py:229-258 | the outcome and the client's new state are exactly `GetOriginals` of its old state |
| `Conversations.Replied` | twitter_network_search.py:268 | true exactly when `reply_count` is a number above 0 and `type` is None; false when the count is NaN or at most 0, or `type` is not None; a missing `reply_count` column raises KeyError |
| `Conversations.FetchConversation` | twitter_network_search.py:271-274 | the search succeeds exactly when the call and `meta.result_count` succeed and, for a positive count, `data` and `includes.users` are present; a count of at most 0 contributes nothing; otherwise the page is that `data` and those users; a failed call raises its error |
| `Conversations.ConversationLoopCollects` | twitter_network_search.py:267-276 | the loop searches once per qualifying row, in row order, and returns every record of every non-empty answer, in order |
| `Conversations.GetConversationsResult` | twitter_network_search.py:260-283 | a successful run searched the conversations of exactly the qualifying rows; it returns the inputs followed by the cleaned replies and their users |
| `Conversations.RootUrlsSelect` | twitter_network_search.py:268-270 | every row with a positive reply count and `type` None has its conversation searched |
| `Conversations.RootUrlsOnlyQualifying` | twitter_network_search.py:268-270 | only qualifying rows have their conversation searched |
| `Conversations.GetConversations` | twitter_network_search.py:260-283 | the outcome and the client's new state are exactly `GetConversationsOf` of its old state |
| `Relationships.Tag` | twitter_network_search.py:298 | `pd.DataFrame(records).assign(relationship_tweet_id=tweet_id)` is the records, each with `relationship_tweet_id` set to the tweet id |
| `Relationships.ReportError` | twitter_network_search.py:292 | printing the first error raises IndexError on an empty list, or KeyError when `title` or `detail` is missing |
| `Relationships.Relationship` | twitter_network_search.py:286-300 | succeeds exactly when the call succeeds and either the `errors` list can be printed, or `meta.result_count` is present and is at most 0 or comes with `data`; an answer with `errors` or a count of at most 0 leaves the accumulator unchanged; otherwise the tagged records are appended; a failed fetch raises its error; success keeps the accumulator as a prefix |
| `Relationships.Liked` | twitter_network_search.py:311 | true exactly when `like_count` is a number of at least 1; a missing column raises KeyError |
| `Relationships.LikesLoopResult` | twitter_network_search.py:309-313 | `get_relationship` is called once per liked row, in row order; the accumulated rows stay in front; every added row is tagged with the id of a liked tweet |
| `Relationships.RelationshipTags` | twitter_network_search.py:298 | every row a relationship call adds carries the tweet id |
| `Relationships.LikeUrlsSelect` | twitter_network_search.py:311-312 | every row with at least one like has its likers fetched |
| `Relationships.LikeUrlsOnlyLiked` | twitter_network_search.py:311-312 | only rows with at least one like have their likers fetched |
| `Relationships.GetRelationship` | twitter_network_search.py:286-300 | the outcome and the client's new state are exactly `Relationship` of its old state |
| `Relationships.GetLikes` | twitter_network_search.py:302-315 | the outcome and the client's new state are exactly `Likes` of its old state |

## Left out

- Real HTTP and authentication are not modelled. This covers `requests.request`, `bearer_oauth`, the `BEARER_TOKEN` environment read (lines 10, 147-152) and `response.json()`. Responses arrive from an injected queue, already parsed into `Fetcher.Body`, so a JSON decoding error cannot occur.
- Clocks are not modelled. `datetime.fromtimestamp`, `datetime.now` and `timedelta.seconds` are replaced by the `reset` field of a response: the seconds left until the rate limit resets. `int()` parsing of the header text is not modelled, so neither is its `ValueError`.
- The log of `connect_to_endpoint` records the sleep duration. It does not record the time.
- An exhausted response queue raises `ConnectionError`. The source would block on the network.
- Output is not modelled: every `print` (except the failure of line 292's subscripts), the CSV export and `main` (lines 337-375).
- `day_to_time` (lines 181-190) is not modelled. `Pagination.Search` takes the converted start and end times as inputs.
- `estimated_number_of_results` (lines 317-335) is not part of this model. It is not part of the crawling core.
- `drop_duplicates` on users in `main` (line 361) is not modelled.
- Pandas typing is not modelled: dtypes, the index, integer-to-float upcasts in `iterrows`, and how NaN and None convert when frames are appended. A cell missing from a row reads as NaN, and an explicit None stays None.
- The nested JSON fields are parsed into fixed shapes. A `public_metrics` cell is `Value.Metrics`, which always holds all four counters, and each element of a `referenced_tweets` list is a `Frames.Reference`, which always holds `type` and `id`. So the `KeyError` for a metrics object without one of the counters (line 21) is not modelled, nor the `KeyError` for a reference without `type` or `id` and the `TypeError` for a list element that is not a dictionary (lines 32-33). `Normalise.MetricOf` returns `KeyError` for a name outside the four counters, but the model only calls it with those four names.
- `Frames.Text` renders values as an f-string would, but without Python's quote escaping inside `repr` of nested values.
- `Pagination.Search` and `Pagination.SearchAndPaginate` start from the corrected `Urls.SearchUrl`. With exactly one time bound, the source sends the as-written URL instead (see "## Findings"). `Pagination.SearchResult` states the search for any first URL, and `Pagination.SearchAsWrittenAgreement` shows the two searches are equal when both bounds or neither are given.
- The specification functions have no contract of their own: `Normalise.AssignMetrics`, `Pagination.Search`, `Pagination.SearchFrom`, `Pagination.PageLoop`, `Pagination.CleanTweets`, `Originals.ChunkLoop`, `Originals.GetOriginals`, `Conversations.ConversationLoop`, `Conversations.GetConversationsOf`, `Relationships.LikesLoop` and `Relationships.Likes`. Each method is proved equal to one of them. Their properties are stated by the lemmas in the table: `AssignMetricsPrefix`, `MetricsFlattened` and `AssignMetricsFailure`; the `PageLoop…` lemmas and `SearchResult`; `ChunkLoopCollects` and `GetOriginalsResult`; `ConversationLoopCollects`, `GetConversationsResult`, `RootUrlsSelect` and `RootUrlsOnlyQualifying`; `LikesLoopResult`, `LikeUrlsSelect` and `LikeUrlsOnlyLiked`.
- `Collect.AllRecordsCons`, `Collect.CollectedAfter`, `Relationships.LikedIdLater` and the `…Unfold` and `CallsThen…` lemmas are one-step helpers of the loop proofs.
- `Fetcher.Data` and `Collect.AppendCleaned` are helpers. `GetOriginalsResult` and `GetConversationsResult` state what they contribute.
- `Normalise.CleanInPlace`: after a failure, what the passed frame holds is not stated.
- `Urls.TweetUrl`, `Urls.SearchUrl`, `Urls.RepliesToUserUrl`, `Urls.ConversationUrl`, `Urls.LikingUsersUrl`, `Urls.RetweetingUsersUrl`, `Urls.UserUrl` and `Urls.NextPageUrl` have no contract of their own. Each is plain concatenation, and the lemmas above state what is true of their results.

## Findings

| source | as written | input that shows it | evidently intended | confidence | as-written member | corrected member |
|---|---|---|---|---|---|---|
| twitter_network_search.py:91 | `&end_time=` is appended when `start_time is not None` | `search_url(q, 100, None, "2022-01-05T00:00:00.000Z")` drops the end bound; `search_url(q, 100, "2022-01-04T00:00:00.000Z", None)` sends `&end_time=None` | test `end_time is not None`, as `estimated_number_of_results` does at line 329 | not executed | `Urls.SearchUrlAsWrittenDropsEndTime` | `Urls.SearchUrlBounds` |

`Urls.SearchUrlAsWritten` is the builder as written. `Urls.SearchUrlAsWrittenSendsNone` shows the second input. `Urls.SearchUrlAgreement` shows that the two builders agree when both bounds or neither are given. The rest of the model uses the corrected `Urls.SearchUrl` (see "## Left out" for `Pagination.Search`).
