/**
 * The tabular data model: a pandas DataFrame of API records becomes a Table,
 * a set of column names and a sequence of rows.  A row maps column names to
 * cell values; a column of the table that a row has no entry for holds NaN
 * (pandas fills such cells when it builds or appends frames).
 */
module Frames {
  import opened Wrappers

  /** The exceptions the modelled code can raise; every one aborts the run. */
  datatype Error =
    | KeyError(key: string)           // a missing dictionary key or DataFrame column
    | TypeError                       // an operation applied to a value of the wrong kind
    | IndexError                      // x[0] on an empty list
    | HttpError(status: int, text: string)  // "Request returned an error"
    | ConnectionError(url: string)    // the request itself could not be made

  /** One element of a tweet's `referenced_tweets` list. */
  datatype Reference = Reference(kind: string, id: string)

  /** A cell: NaN (missing), Python None, a string, an integer, or one of the two nested JSON fields. */
  datatype Value =
    | NaN
    | Null
    | Str(s: string)
    | Int(n: int)
    | Metrics(retweetCount: int, replyCount: int, likeCount: int, quoteCount: int)
    | Refs(refs: seq<Reference>)

  type Row = map<string, Value>

  datatype Table = Table(cols: set<string>, rows: seq<Row>)

  const Empty: Table := Table({}, [])

  /** The `id` column of tweet frames. */
  const IdColumn := "id"

  /** Every key of every row is a column of the table. */
  ghost predicate WellFormed(t: Table) {
    forall i :: 0 <= i < |t.rows| ==> t.rows[i].Keys <= t.cols
  }

  /** The value in column `c` of row `r` (NaN when the row has no entry). */
  function Cell(r: Row, c: string): Value {
    if c in r then r[c] else NaN
  }

  /** `row[c]` for a row of table `t`: a KeyError when `t` has no column `c`. */
  function Column(t: Table, r: Row, c: string): (v: Result<Value, Error>)
    ensures v.Success? <==> c in t.cols
    ensures v.Success? ==> v.value == Cell(r, c)
  {
    if c in t.cols then Success(Cell(r, c)) else Failure(KeyError(c))
  }

  /** The union of the keys of the records. */
  function KeysOf(records: seq<Row>): (ks: set<string>)
    ensures forall c :: c in ks <==> exists i :: 0 <= i < |records| && c in records[i]
  {
    if |records| == 0 then {}
    else
      var rest := KeysOf(records[1..]);
      assert forall j :: 0 <= j < |records| - 1 ==> records[1..][j] == records[j + 1];
      records[0].Keys + rest
  }

  /** `pd.DataFrame(records)`: the columns are the keys found in any record. */
  function FromRecords(records: seq<Row>): (t: Table)
    ensures t.rows == records && WellFormed(t)
    ensures forall c :: c in t.cols <==> exists i :: 0 <= i < |records| && c in records[i]
  {
    Table(KeysOf(records), records)
  }

  /** `a.append(b, ignore_index=True)`: rows of `b` after those of `a`, columns united. */
  function Append(a: Table, b: Table): (t: Table)
    ensures t.rows == a.rows + b.rows && t.cols == a.cols + b.cols
    ensures WellFormed(a) && WellFormed(b) ==> WellFormed(t)
  {
    Table(a.cols + b.cols, a.rows + b.rows)
  }

  /** `t[name] = values`: every row gets the value at its position in column `name`. */
  function AssignColumn(t: Table, name: string, values: seq<Value>): (r: Table)
    requires |values| == |t.rows|
    ensures r.cols == t.cols + {name} && |r.rows| == |t.rows|
    ensures forall i :: 0 <= i < |t.rows| ==> r.rows[i].Keys == t.rows[i].Keys + {name} && Cell(r.rows[i], name) == values[i]
    ensures forall i, k :: 0 <= i < |t.rows| && k != name ==> Cell(r.rows[i], k) == Cell(t.rows[i], k)
    ensures WellFormed(t) ==> WellFormed(r)
  {
    Table(t.cols + {name}, seq(|t.rows|, i requires 0 <= i < |t.rows| => t.rows[i][name := values[i]]))
  }

  /** `t.drop(columns=[name])`: the column and every row's entry for it go. */
  function DropColumn(t: Table, name: string): (r: Table)
    ensures r.cols == t.cols - {name} && |r.rows| == |t.rows|
    ensures forall i :: 0 <= i < |t.rows| ==> r.rows[i].Keys == t.rows[i].Keys - {name}
    ensures forall i, k :: 0 <= i < |t.rows| && k != name ==> Cell(r.rows[i], k) == Cell(t.rows[i], k)
    ensures WellFormed(t) ==> WellFormed(r)
  {
    Table(t.cols - {name}, seq(|t.rows|, i requires 0 <= i < |t.rows| => t.rows[i] - {name}))
  }

  /** `v > k` in Python: NaN compares false, a non-number raises TypeError. */
  function GreaterThan(v: Value, k: int): (b: Result<bool, Error>)
    ensures b.Success? <==> v.Int? || v.NaN?
    ensures b == Success(true) <==> v.Int? && v.n > k
  {
    match v
    case Int(n) => Success(n > k)
    case NaN => Success(false)
    case _ => Failure(TypeError)
  }

  /** `v >= k` in Python, with the same NaN and TypeError behaviour. */
  function AtLeast(v: Value, k: int): (b: Result<bool, Error>)
    ensures b.Success? <==> v.Int? || v.NaN?
    ensures b == Success(true) <==> v.Int? && v.n >= k
  {
    match v
    case Int(n) => Success(n >= k)
    case NaN => Success(false)
    case _ => Failure(TypeError)
  }

  function DigitChar(d: nat): char
    requires d < 10
  {
    "0123456789"[d]
  }

  /** Decimal digits of a natural number, most significant first. */
  function NatText(n: nat): (s: string)
    ensures |s| > 0 && forall i :: 0 <= i < |s| ==> '0' <= s[i] <= '9'
  {
    if n < 10 then [DigitChar(n)] else NatText(n / 10) + [DigitChar(n % 10)]
  }

  /** `str(n)` for a Python int. */
  function IntText(n: int): string {
    if n < 0 then "-" + NatText(-n) else NatText(n)
  }

  function ReferencesText(refs: seq<Reference>): string {
    if |refs| == 0 then ""
    else
      "{'type': '" + refs[0].kind + "', 'id': '" + refs[0].id + "'}"
      + (if |refs| == 1 then "" else ", " + ReferencesText(refs[1..]))
  }

  /** `str(v)`, as an f-string renders a cell (Python's escaping of quotes inside strings is not modelled). */
  function Text(v: Value): string {
    match v
    case NaN => "nan"
    case Null => "None"
    case Str(s) => s
    case Int(n) => IntText(n)
    case Metrics(rt, rp, lk, qt) =>
      "{'retweet_count': " + IntText(rt) + ", 'reply_count': " + IntText(rp)
      + ", 'like_count': " + IntText(lk) + ", 'quote_count': " + IntText(qt) + "}"
    case Refs(refs) => "[" + ReferencesText(refs) + "]"
  }

  /** The columns of concatenated records are the union of both parts' columns. */
  lemma KeysOfConcat(a: seq<Row>, b: seq<Row>)
    ensures KeysOf(a + b) == KeysOf(a) + KeysOf(b)
  {
    forall c | c in KeysOf(a + b) ensures c in KeysOf(a) + KeysOf(b) {
      var i :| 0 <= i < |a + b| && c in (a + b)[i];
      if i < |a| { assert a[i] == (a + b)[i]; } else { assert b[i - |a|] == (a + b)[i]; }
    }
    forall c | c in KeysOf(a) + KeysOf(b) ensures c in KeysOf(a + b) {
      if c in KeysOf(a) {
        var i :| 0 <= i < |a| && c in a[i];
        assert (a + b)[i] == a[i];
      } else {
        var i :| 0 <= i < |b| && c in b[i];
        assert (a + b)[|a| + i] == b[i];
      }
    }
  }

  /** Appending the frames of two record lists is the frame of the joined list. */
  lemma AppendRecords(a: seq<Row>, b: seq<Row>)
    ensures Append(FromRecords(a), FromRecords(b)) == FromRecords(a + b)
  {
    KeysOfConcat(a, b);
  }
}
