/**
 * The result normaliser: `extract_public_metrics`, `extract_referenced_tweets`
 * and `clean_tweets_dataframe`.  The functions give the value each step
 * returns; the class Frame and the *InPlace methods follow the source, which
 * assigns the new columns into the DataFrame it was passed before it builds
 * the returned frame with `drop`.
 */
module Normalise {
  import opened Wrappers
  import opened Frames

  const PublicMetrics := "public_metrics"
  const ReferencedTweets := "referenced_tweets"
  const TypeColumn := "type"
  const ReferencedTweetId := "referenced_tweet_id"

  /** The four counters, in the order the source assigns them. */
  const MetricNames: seq<string> := ["retweet_count", "reply_count", "like_count", "quote_count"]

  /**
   * `column.apply(f)`: f applied to every row; the first row on which f
   * raises makes the whole application raise.
   */
  function Apply(rows: seq<Row>, f: Row -> Result<Value, Error>): (r: Result<seq<Value>, Error>)
    ensures r.Success? <==> forall i :: 0 <= i < |rows| ==> f(rows[i]).Success?
    ensures r.Success? ==> |r.value| == |rows| && forall i :: 0 <= i < |rows| ==> r.value[i] == f(rows[i]).value
  {
    if |rows| == 0 then Success([])
    else
      var v :- f(rows[0]);
      var rest :- Apply(rows[1..], f);
      assert forall i :: 1 <= i < |rows| ==> rows[i] == rows[1..][i - 1];
      Success([v] + rest)
  }

  // ---------------------------------------------------------------- public_metrics

  /** `x[name]` for a `public_metrics` cell x: only a metrics object can be subscripted. */
  function MetricOf(x: Value, name: string): (r: Result<Value, Error>)
    ensures r.Success? <==> x.Metrics? && name in MetricNames
  {
    if !x.Metrics? then Failure(TypeError)
    else if name == "retweet_count" then Success(Int(x.retweetCount))
    else if name == "reply_count" then Success(Int(x.replyCount))
    else if name == "like_count" then Success(Int(x.likeCount))
    else if name == "quote_count" then Success(Int(x.quoteCount))
    else Failure(KeyError(name))
  }

  function MetricCell(name: string): Row -> Result<Value, Error> {
    row => MetricOf(Cell(row, PublicMetrics), name)
  }

  /** The loop of lines 20-21 after the given column names: each is assigned in turn. */
  function AssignMetrics(t: Table, names: seq<string>): Result<Table, Error>
    decreases |names|
  {
    if |names| == 0 then Success(t)
    else
      var before :- AssignMetrics(t, names[..|names| - 1]);
      var values :- Apply(before.rows, MetricCell(names[|names| - 1]));
      Success(AssignColumn(before, names[|names| - 1], values))
  }

  /** `extract_public_metrics`: the four counters become columns and `public_metrics` is dropped. */
  function ExtractPublicMetrics(t: Table): (r: Result<Table, Error>)
    ensures PublicMetrics !in t.cols ==> r == Success(t)
  {
    if PublicMetrics !in t.cols then Success(t)
    else
      var withCounts :- AssignMetrics(t, MetricNames);
      Success(DropColumn(withCounts, PublicMetrics))
  }

  /** A row whose `public_metrics` object is replaced by its four counters. */
  function FlatMetrics(row: Row): (r: Row)
    requires Cell(row, PublicMetrics).Metrics?
    ensures PublicMetrics !in r
    ensures Cell(r, "retweet_count") == Int(row[PublicMetrics].retweetCount)
    ensures Cell(r, "reply_count") == Int(row[PublicMetrics].replyCount)
    ensures Cell(r, "like_count") == Int(row[PublicMetrics].likeCount)
    ensures Cell(r, "quote_count") == Int(row[PublicMetrics].quoteCount)
    ensures forall k :: k != PublicMetrics && k !in MetricNames ==> Cell(r, k) == Cell(row, k)
  {
    var m := row[PublicMetrics];
    row["retweet_count" := Int(m.retweetCount)]["reply_count" := Int(m.replyCount)]
       ["like_count" := Int(m.likeCount)]["quote_count" := Int(m.quoteCount)] - {PublicMetrics}
  }

  ghost predicate AllMetrics(t: Table) {
    forall i :: 0 <= i < |t.rows| ==> Cell(t.rows[i], PublicMetrics).Metrics?
  }

  /** The names assigned by the first k rounds of the metric loop. */
  function MetricPrefix(k: nat): set<string>
    requires k <= |MetricNames|
  {
    if k == 0 then {} else MetricPrefix(k - 1) + {MetricNames[k - 1]}
  }

  /** A row after the first k rounds of the metric loop. */
  function RowAfter(row: Row, k: nat): Row
    requires Cell(row, PublicMetrics).Metrics? && k <= |MetricNames|
  {
    if k == 0 then row
    else RowAfter(row, k - 1)[MetricNames[k - 1] := MetricOf(row[PublicMetrics], MetricNames[k - 1]).value]
  }

  lemma {:induction false} RowAfterKeepsSource(row: Row, k: nat)
    requires Cell(row, PublicMetrics).Metrics? && k <= |MetricNames|
    ensures Cell(RowAfter(row, k), PublicMetrics) == Cell(row, PublicMetrics)
  {
    if k > 0 {
      RowAfterKeepsSource(row, k - 1);
    }
  }

  /** The table after the first k rounds of the metric loop. */
  function TableAfter(t: Table, k: nat): Table
    requires AllMetrics(t) && k <= |MetricNames|
  {
    Table(t.cols + MetricPrefix(k), seq(|t.rows|, i requires 0 <= i < |t.rows| => RowAfter(t.rows[i], k)))
  }

  /** On a table whose rows all hold a metrics object, no round of the metric loop raises. */
  lemma {:induction false} AssignMetricsPrefix(t: Table, k: nat)
    requires AllMetrics(t) && k <= |MetricNames|
    ensures AssignMetrics(t, MetricNames[..k]) == Success(TableAfter(t, k))
  {
    if k == 0 {
      assert MetricNames[..0] == [];
      assert TableAfter(t, 0).rows == t.rows;
      assert TableAfter(t, 0) == t;
    } else {
      AssignMetricsPrefix(t, k - 1);
      AssignMetricsRound(t, k);
    }
  }

  /** Round k of the metric loop takes the table after k - 1 rounds to the table after k. */
  lemma {:induction false} AssignMetricsRound(t: Table, k: nat)
    requires AllMetrics(t) && 0 < k <= |MetricNames|
    requires AssignMetrics(t, MetricNames[..k - 1]) == Success(TableAfter(t, k - 1))
    ensures AssignMetrics(t, MetricNames[..k]) == Success(TableAfter(t, k))
  {
    var names := MetricNames[..k];
    assert names[..|names| - 1] == MetricNames[..k - 1];
    var name := MetricNames[k - 1];
    assert names[|names| - 1] == name;
    var before := TableAfter(t, k - 1);
    RoundApplies(t, k);
    var values := Apply(before.rows, MetricCell(name));
    AssignMetricsUnfold(t, names, before, values.value);
    AssignedRound(t, k, values.value);
  }

  /** Round k of the metric loop reads counter k of every row's metrics object. */
  lemma {:induction false} RoundApplies(t: Table, k: nat)
    requires AllMetrics(t) && 0 < k <= |MetricNames|
    ensures var r := Apply(TableAfter(t, k - 1).rows, MetricCell(MetricNames[k - 1]));
      && r.Success? && |r.value| == |t.rows|
      && forall i :: 0 <= i < |t.rows| ==> r.value[i] == MetricOf(t.rows[i][PublicMetrics], MetricNames[k - 1]).value
  {
    var name := MetricNames[k - 1];
    var before := TableAfter(t, k - 1);
    forall i | 0 <= i < |before.rows| ensures MetricCell(name)(before.rows[i]) == MetricOf(t.rows[i][PublicMetrics], name) {
      RowAfterKeepsSource(t.rows[i], k - 1);
    }
  }

  /** Assigning round k's counters to the table after k - 1 rounds gives the table after k. */
  lemma {:induction false} AssignedRound(t: Table, k: nat, values: seq<Value>)
    requires AllMetrics(t) && 0 < k <= |MetricNames|
    requires |values| == |t.rows|
    requires forall i :: 0 <= i < |t.rows| ==> values[i] == MetricOf(t.rows[i][PublicMetrics], MetricNames[k - 1]).value
    ensures AssignColumn(TableAfter(t, k - 1), MetricNames[k - 1], values) == TableAfter(t, k)
  {
    var a := AssignColumn(TableAfter(t, k - 1), MetricNames[k - 1], values);
    assert a.rows == TableAfter(t, k).rows;
  }

  lemma AssignMetricsUnfold(t: Table, names: seq<string>, before: Table, values: seq<Value>)
    requires |names| > 0
    requires AssignMetrics(t, names[..|names| - 1]) == Success(before)
    requires Apply(before.rows, MetricCell(names[|names| - 1])) == Success(values)
    ensures AssignMetrics(t, names) == Success(AssignColumn(before, names[|names| - 1], values))
  {
  }

  /**
   * When `public_metrics` is a column: the step raises exactly when some row
   * holds no metrics object there, and otherwise every row is flattened and
   * the column set trades `public_metrics` for the four counters.
   */
  lemma MetricsFlattened(t: Table)
    requires PublicMetrics in t.cols
    ensures ExtractPublicMetrics(t).Success? <==> AllMetrics(t)
    ensures ExtractPublicMetrics(t).Success? ==>
      var r := ExtractPublicMetrics(t).value;
      && r.cols == t.cols + {"retweet_count", "reply_count", "like_count", "quote_count"} - {PublicMetrics}
      && |r.rows| == |t.rows|
      && forall i :: 0 <= i < |t.rows| ==> r.rows[i] == FlatMetrics(t.rows[i])
  {
    if AllMetrics(t) {
      AssignMetricsPrefix(t, |MetricNames|);
      assert MetricNames[..|MetricNames|] == MetricNames;
      AllMetricNames();
      forall i | 0 <= i < |t.rows| ensures RowAfter(t.rows[i], |MetricNames|) - {PublicMetrics} == FlatMetrics(t.rows[i]) {
        FlatMetricsIsLoopResult(t.rows[i]);
      }
    } else {
      var i :| 0 <= i < |t.rows| && !Cell(t.rows[i], PublicMetrics).Metrics?;
      assert MetricNames[..1][..0] == [];
      assert !MetricCell(MetricNames[0])(t.rows[i]).Success?;
      AssignMetricsFailure(t, MetricNames, 0);
    }
  }

  lemma AllMetricNames()
    ensures MetricPrefix(|MetricNames|) == {"retweet_count", "reply_count", "like_count", "quote_count"}
  {
    assert MetricPrefix(2) == {"retweet_count", "reply_count"};
  }

  /** Four rounds of the metric loop and the drop give the flattened row. */
  lemma FlatMetricsIsLoopResult(row: Row)
    requires Cell(row, PublicMetrics).Metrics?
    ensures RowAfter(row, |MetricNames|) - {PublicMetrics} == FlatMetrics(row)
  {
    var m := row[PublicMetrics];
    assert RowAfter(row, 1) == row["retweet_count" := Int(m.retweetCount)];
    assert RowAfter(row, 2) == RowAfter(row, 1)["reply_count" := Int(m.replyCount)];
    assert RowAfter(row, 3) == RowAfter(row, 2)["like_count" := Int(m.likeCount)];
    assert RowAfter(row, 4) == RowAfter(row, 3)["quote_count" := Int(m.quoteCount)];
  }

  // ------------------------------------------------------------- referenced_tweets

  /** `x[0]['type'] if isinstance(x, list) else None`. */
  function RefType(x: Value): (r: Result<Value, Error>)
    ensures r.Failure? <==> x.Refs? && |x.refs| == 0
  {
    if !x.Refs? then Success(Null)
    else if |x.refs| == 0 then Failure(IndexError)
    else Success(Str(x.refs[0].kind))
  }

  /** `x[0]['id'] if isinstance(x, list) else None`. */
  function RefId(x: Value): (r: Result<Value, Error>)
    ensures r.Failure? <==> x.Refs? && |x.refs| == 0
  {
    if !x.Refs? then Success(Null)
    else if |x.refs| == 0 then Failure(IndexError)
    else Success(Str(x.refs[0].id))
  }

  function RefTypeCell(row: Row): Result<Value, Error> { RefType(Cell(row, ReferencedTweets)) }

  function RefIdCell(row: Row): Result<Value, Error> { RefId(Cell(row, ReferencedTweets)) }

  /** No row's `referenced_tweets` cell is an empty list. */
  ghost predicate NoEmptyReferences(t: Table) {
    forall i :: 0 <= i < |t.rows| ==> !(Cell(t.rows[i], ReferencedTweets).Refs? && |Cell(t.rows[i], ReferencedTweets).refs| == 0)
  }

  /**
   * Lines 32-33: the frame with `type` and `referenced_tweet_id` assigned and
   * the list still in place, as the source leaves the frame it was passed.
   */
  function ReferenceColumns(t: Table): (r: Result<Table, Error>)
    ensures r.Success? <==> NoEmptyReferences(t)
    ensures r.Success? ==> r.value.cols == t.cols + {TypeColumn, ReferencedTweetId} && |r.value.rows| == |t.rows|
    ensures r.Success? ==> forall i :: 0 <= i < |t.rows| ==>
      Cell(r.value.rows[i], ReferencedTweets) == Cell(t.rows[i], ReferencedTweets)
      && r.value.rows[i] - {ReferencedTweets} == FlatReference(t.rows[i])
  {
    var types :- Apply(t.rows, RefTypeCell);
    var withType := AssignColumn(t, TypeColumn, types);
    var ids :- Apply(withType.rows, RefIdCell);
    Success(AssignColumn(withType, ReferencedTweetId, ids))
  }

  /** `extract_referenced_tweets`: the primary reference becomes `type` and `referenced_tweet_id`. */
  function ExtractReferencedTweets(t: Table): (r: Result<Table, Error>)
    ensures ReferencedTweets !in t.cols ==> r == Success(t)
  {
    if ReferencedTweets !in t.cols then Success(t)
    else
      var withId :- ReferenceColumns(t);
      Success(DropColumn(withId, ReferencedTweets))
  }

  /** A row whose `referenced_tweets` cell is replaced by its primary reference. */
  function FlatReference(row: Row): (r: Row)
    requires !(Cell(row, ReferencedTweets).Refs? && |Cell(row, ReferencedTweets).refs| == 0)
    ensures ReferencedTweets !in r
    ensures Cell(row, ReferencedTweets).Refs? ==>
      var first := Cell(row, ReferencedTweets).refs[0];
      Cell(r, TypeColumn) == Str(first.kind) && Cell(r, ReferencedTweetId) == Str(first.id)
    ensures !Cell(row, ReferencedTweets).Refs? ==> Cell(r, TypeColumn) == Null && Cell(r, ReferencedTweetId) == Null
    ensures forall k :: k !in {ReferencedTweets, TypeColumn, ReferencedTweetId} ==> Cell(r, k) == Cell(row, k)
  {
    var x := Cell(row, ReferencedTweets);
    row[TypeColumn := RefType(x).value][ReferencedTweetId := RefId(x).value] - {ReferencedTweets}
  }

  /**
   * When `referenced_tweets` is a column: the step raises exactly when some
   * row holds an empty list, and otherwise every row keeps only its first
   * reference, as `type` and `referenced_tweet_id`, and the list is dropped.
   */
  lemma ReferencesFlattened(t: Table)
    requires ReferencedTweets in t.cols
    ensures ExtractReferencedTweets(t).Success? <==> NoEmptyReferences(t)
    ensures ExtractReferencedTweets(t).Success? ==>
      var r := ExtractReferencedTweets(t).value;
      && r.cols == t.cols + {TypeColumn, ReferencedTweetId} - {ReferencedTweets}
      && |r.rows| == |t.rows|
      && forall i :: 0 <= i < |t.rows| ==> r.rows[i] == FlatReference(t.rows[i])
  {
  }

  // ----------------------------------------------------------------- clean_tweets

  /** `clean_tweets_dataframe`: both extraction steps, public metrics first. */
  function Clean(t: Table): (r: Result<Table, Error>)
    ensures r.Success? ==> PublicMetrics !in r.value.cols && ReferencedTweets !in r.value.cols
    ensures r.Success? ==> |r.value.rows| == |t.rows|
    ensures r.Success? && WellFormed(t) ==> WellFormed(r.value)
    ensures PublicMetrics !in t.cols && ReferencedTweets !in t.cols ==> r == Success(t)
  {
    var flat :- ExtractPublicMetrics(t);
    assert PublicMetrics !in flat.cols && |flat.rows| == |t.rows| && (WellFormed(t) ==> WellFormed(flat)) by {
      if PublicMetrics in t.cols { MetricsFlattened(t); }
    }
    var r := ExtractReferencedTweets(flat);
    assert r.Success? ==> PublicMetrics !in r.value.cols && |r.value.rows| == |t.rows|
      && (WellFormed(t) ==> WellFormed(r.value)) by {
      if ReferencedTweets in flat.cols { ReferencesFlattened(flat); }
    }
    r
  }

  /** Cleaning a cleaned table changes nothing: the normaliser is idempotent. */
  lemma CleanIdempotent(t: Table)
    requires Clean(t).Success?
    ensures Clean(Clean(t).value) == Clean(t)
  {
  }

  // ------------------------------------------------------------- the mutable frame

  /** A DataFrame object, whose columns the normaliser assigns in place. */
  class Frame {
    var cols: set<string>
    var rows: seq<Row>

    constructor (t: Table)
      ensures View() == t
    {
      cols := t.cols;
      rows := t.rows;
    }

    /** The table the frame holds. */
    function View(): Table
      reads this
    {
      Table(cols, rows)
    }

    /** `df[name] = values`. */
    method Assign(name: string, values: seq<Value>)
      requires |values| == |rows|
      modifies this
      ensures View() == AssignColumn(old(View()), name, values)
    {
      var current := rows;
      cols := cols + {name};
      rows := seq(|current|, i requires 0 <= i < |current| => current[i][name := values[i]]);
    }

    /** `df.drop(columns=[name])`: a new frame; this one is left as it is. */
    method Drop(name: string) returns (g: Frame)
      ensures fresh(g) && g.View() == DropColumn(View(), name)
    {
      g := new Frame(DropColumn(View(), name));
    }
  }

  /**
   * `extract_public_metrics(f)`: returns `f` itself when it has no
   * `public_metrics` column; otherwise assigns the four counters into `f`
   * and returns a new frame without `public_metrics`.
   */
  method ExtractPublicMetricsInPlace(f: Frame) returns (r: Result<Frame, Error>)
    modifies f
    ensures r.Success? <==> ExtractPublicMetrics(old(f.View())).Success?
    ensures r.Success? ==> r.value.View() == ExtractPublicMetrics(old(f.View())).value
    ensures r.Failure? ==> ExtractPublicMetrics(old(f.View())) == Failure(r.error)
    ensures PublicMetrics !in old(f.cols) ==> r == Success(f) && f.View() == old(f.View())
    ensures PublicMetrics in old(f.cols) && r.Success? ==>
      fresh(r.value) && f.View() == AssignMetrics(old(f.View()), MetricNames).value
    ensures r.Failure? ==> exists k :: (0 <= k < |MetricNames|
      && AssignMetrics(old(f.View()), MetricNames[..k]) == Success(f.View())
      && AssignMetrics(old(f.View()), MetricNames[..k + 1]) == Failure(r.error))
  {
    if PublicMetrics !in f.cols {
      return Success(f);
    }
    ghost var t0 := f.View();
    for k := 0 to |MetricNames|
      invariant AssignMetrics(t0, MetricNames[..k]).Success?
      invariant f.View() == AssignMetrics(t0, MetricNames[..k]).value
      invariant PublicMetrics in f.cols
    {
      assert MetricNames[..k + 1][..k] == MetricNames[..k];
      var values := Apply(f.rows, MetricCell(MetricNames[k]));
      if values.Failure? {
        AssignMetricsFailure(t0, MetricNames, k);
        assert AssignMetrics(t0, MetricNames[..k + 1]) == Failure(values.error);
        return Failure(values.error);
      }
      f.Assign(MetricNames[k], values.value);
    }
    assert MetricNames[..|MetricNames|] == MetricNames;
    var g := f.Drop(PublicMetrics);
    return Success(g);
  }

  /** Once a round of the metric loop raises, the later rounds do not run: the loop fails with that error. */
  lemma {:induction false} AssignMetricsFailure(t: Table, names: seq<string>, k: nat)
    requires k < |names|
    requires AssignMetrics(t, names[..k + 1]).Failure?
    ensures AssignMetrics(t, names) == AssignMetrics(t, names[..k + 1])
    decreases |names|
  {
    if |names| == k + 1 {
      assert names[..k + 1] == names;
    } else {
      var shorter := names[..|names| - 1];
      assert shorter[..k + 1] == names[..k + 1];
      AssignMetricsFailure(t, shorter, k);
    }
  }

  /**
   * `extract_referenced_tweets(f)`: returns `f` itself without a
   * `referenced_tweets` column; otherwise assigns `type` and
   * `referenced_tweet_id` into `f` and returns a new frame without the list.
   */
  method ExtractReferencedTweetsInPlace(f: Frame) returns (r: Result<Frame, Error>)
    modifies f
    ensures r.Success? <==> ExtractReferencedTweets(old(f.View())).Success?
    ensures r.Success? ==> r.value.View() == ExtractReferencedTweets(old(f.View())).value
    ensures r.Failure? ==> ExtractReferencedTweets(old(f.View())) == Failure(r.error)
    ensures ReferencedTweets !in old(f.cols) ==> r == Success(f) && f.View() == old(f.View())
    ensures ReferencedTweets in old(f.cols) && r.Success? ==>
      fresh(r.value) && f.View() == ReferenceColumns(old(f.View())).value
    ensures r.Failure? ==> f.View() == old(f.View())
  {
    if ReferencedTweets !in f.cols {
      return Success(f);
    }
    ghost var t0 := f.View();
    var types := Apply(f.rows, RefTypeCell);
    if types.Failure? {
      return Failure(types.error);
    }
    f.Assign(TypeColumn, types.value);
    assert forall i :: 0 <= i < |f.rows| ==> Cell(f.rows[i], ReferencedTweets) == Cell(t0.rows[i], ReferencedTweets);
    assert forall i :: 0 <= i < |f.rows| ==> RefIdCell(f.rows[i]).Success? by {
      forall i | 0 <= i < |f.rows| ensures RefIdCell(f.rows[i]).Success? {
        assert RefTypeCell(t0.rows[i]).Success?;
      }
    }
    var ids := Apply(f.rows, RefIdCell);
    f.Assign(ReferencedTweetId, ids.value);
    var g := f.Drop(ReferencedTweets);
    return Success(g);
  }

  /** `clean_tweets_dataframe(f)`. */
  method CleanInPlace(f: Frame) returns (r: Result<Frame, Error>)
    modifies f
    ensures r.Success? <==> Clean(old(f.View())).Success?
    ensures r.Success? ==> r.value.View() == Clean(old(f.View())).value
    ensures r.Failure? ==> Clean(old(f.View())) == Failure(r.error)
    ensures PublicMetrics !in old(f.cols) && ReferencedTweets !in old(f.cols) ==> r == Success(f) && f.View() == old(f.View())
    ensures PublicMetrics in old(f.cols) && r.Success? ==>
      fresh(r.value) && f.View() == AssignMetrics(old(f.View()), MetricNames).value
    ensures PublicMetrics !in old(f.cols) && ReferencedTweets in old(f.cols) && r.Success? ==>
      fresh(r.value) && f.View() == ReferenceColumns(old(f.View())).value
  {
    var flat := ExtractPublicMetricsInPlace(f);
    if flat.Failure? {
      return Failure(flat.error);
    }
    r := ExtractReferencedTweetsInPlace(flat.value);
  }
}
