/**
 * Sequence logic of `get_original_tweets` (lines 238-244): the de-duplication
 * `list(dict.fromkeys(ids))` and the split into lookup batches
 * `[ids[x:x+100] for x in range(0, len(ids), 100)]`.
 */
module Selection {

  /** The bulk-lookup endpoint accepts at most this many ids per request. */
  const BatchSize: nat := 100

  ghost predicate NoDuplicates<T>(s: seq<T>) {
    forall i, j :: 0 <= i < j < |s| ==> s[i] != s[j]
  }

  /** The position of the first occurrence of x in s. */
  function FirstIndex<T(==)>(s: seq<T>, x: T): (k: nat)
    requires x in s
    ensures k < |s| && s[k] == x && x !in s[..k]
  {
    if s[0] == x then 0 else 1 + FirstIndex(s[1..], x)
  }

  /** `list(dict.fromkeys(s))`: each element once, where it first occurs. */
  function Dedup<T(==, !new)>(s: seq<T>): (d: seq<T>)
    ensures NoDuplicates(d)
    ensures forall x :: x in d <==> x in s
    ensures |d| <= |s|
  {
    if |s| == 0 then []
    else
      var d := Dedup(s[..|s| - 1]);
      assert forall x :: x in s <==> x in s[..|s| - 1] || x == s[|s| - 1] by {
        assert s == s[..|s| - 1] + [s[|s| - 1]];
      }
      if s[|s| - 1] in d then d else d + [s[|s| - 1]]
  }

  /** The first occurrence of an element of a prefix lies in that prefix. */
  lemma {:induction false} FirstIndexPrefix<T>(s: seq<T>, k: nat, x: T)
    requires k <= |s| && x in s[..k]
    ensures FirstIndex(s, x) == FirstIndex(s[..k], x)
  {
    if s[0] != x {
      assert s[1..][..k - 1] == s[..k][1..];
      FirstIndexPrefix(s[1..], k - 1, x);
    }
  }

  /** An element that first appears at the end is found there. */
  lemma {:induction false} FirstIndexOfNewLast<T>(s: seq<T>)
    requires |s| > 0 && s[|s| - 1] !in s[..|s| - 1]
    ensures FirstIndex(s, s[|s| - 1]) == |s| - 1
  {
    if |s| > 1 {
      assert s[0] in s[..|s| - 1];
      assert s[1..][..|s| - 2] == s[1..|s| - 1];
      assert s[1..|s| - 1] == s[..|s| - 1][1..];
      FirstIndexOfNewLast(s[1..]);
    }
  }

  /** A Dedup result lists the elements in the order of their first occurrences. */
  lemma {:induction false} DedupKeepsFirstOccurrenceOrder<T(!new)>(s: seq<T>)
    ensures OrderedByFirstIndex(s, Dedup(s))
  {
    if |s| > 0 {
      var p := s[..|s| - 1];
      var last := s[|s| - 1];
      DedupKeepsFirstOccurrenceOrder(p);
      var dp := Dedup(p);
      OrderSurvivesExtension(s, dp);
      if last !in dp {
        assert Dedup(s) == dp + [last];
        NewLastComesLast(s, dp);
      } else {
        assert Dedup(s) == dp;
      }
    }
  }

  /** The elements of d appear in s in the order of their first occurrences. */
  ghost predicate OrderedByFirstIndex<T>(s: seq<T>, d: seq<T>)
    requires forall x :: x in d ==> x in s
  {
    forall i, j :: 0 <= i < j < |d| ==> FirstIndex(s, d[i]) < FirstIndex(s, d[j])
  }

  /** Extending s by one element moves no first occurrence of an element already in it. */
  lemma OrderSurvivesExtension<T(!new)>(s: seq<T>, dp: seq<T>)
    requires |s| > 0 && dp == Dedup(s[..|s| - 1])
    requires OrderedByFirstIndex(s[..|s| - 1], dp)
    ensures forall x :: x in dp ==> x in s && FirstIndex(s, x) == FirstIndex(s[..|s| - 1], x) < |s| - 1
    ensures OrderedByFirstIndex(s, dp)
  {
    var p := s[..|s| - 1];
    forall x | x in dp ensures x in s && FirstIndex(s, x) == FirstIndex(p, x) && FirstIndex(p, x) < |p| {
      FirstIndexPrefix(s, |s| - 1, x);
    }
    forall i, j | 0 <= i < j < |dp| ensures FirstIndex(s, dp[i]) < FirstIndex(s, dp[j]) {
      assert dp[i] in dp && dp[j] in dp;
      assert FirstIndex(p, dp[i]) < FirstIndex(p, dp[j]);
    }
  }

  /** An element first seen at the end of s comes after every earlier first occurrence. */
  lemma NewLastComesLast<T(!new)>(s: seq<T>, dp: seq<T>)
    requires |s| > 0 && dp == Dedup(s[..|s| - 1]) && s[|s| - 1] !in dp
    requires forall x :: x in dp ==> x in s && FirstIndex(s, x) < |s| - 1
    requires OrderedByFirstIndex(s, dp)
    ensures OrderedByFirstIndex(s, dp + [s[|s| - 1]])
  {
    var last := s[|s| - 1];
    FirstIndexOfNewLast(s);
    var d := dp + [last];
    forall i, j | 0 <= i < j < |d| ensures FirstIndex(s, d[i]) < FirstIndex(s, d[j]) {
      assert d[i] == dp[i] && dp[i] in dp;
      if j == |dp| {
        assert d[j] == last;
      } else {
        assert d[j] == dp[j];
      }
    }
  }

  /** Concatenation of a list of lists. */
  function Flatten<T>(css: seq<seq<T>>): seq<T> {
    if |css| == 0 then [] else css[0] + Flatten(css[1..])
  }

  /** The lookup batches: consecutive slices of at most BatchSize elements. */
  function Chunks<T>(s: seq<T>): (cs: seq<seq<T>>)
    ensures forall i :: 0 <= i < |cs| ==> 0 < |cs[i]| <= BatchSize
    ensures |cs| == (|s| + BatchSize - 1) / BatchSize
    decreases |s|
  {
    if |s| == 0 then []
    else if |s| <= BatchSize then [s]
    else [s[..BatchSize]] + Chunks(s[BatchSize..])
  }

  /** The batches, put back together, are the ids they were cut from. */
  lemma {:induction false} ChunksFlatten<T>(s: seq<T>)
    ensures Flatten(Chunks(s)) == s
    decreases |s|
  {
    if 0 < |s| <= BatchSize {
      assert Flatten([s]) == s + Flatten([s][1..]);
    } else if |s| > BatchSize {
      var rest := Chunks(s[BatchSize..]);
      ChunksFlatten(s[BatchSize..]);
      assert ([s[..BatchSize]] + rest)[1..] == rest;
      assert Flatten([s[..BatchSize]] + rest) == s[..BatchSize] + Flatten(rest);
      assert s[..BatchSize] + s[BatchSize..] == s;
    }
  }

  /** Chunk x is the slice `s[x*100 : x*100+100]` of the comprehension. */
  lemma ChunkIsSlice<T>(s: seq<T>, x: nat)
    requires x < |Chunks(s)|
    ensures x * BatchSize < |s|
    ensures Chunks(s)[x] == s[x * BatchSize .. if x * BatchSize + BatchSize < |s| then x * BatchSize + BatchSize else |s|]
  {
    OffsetIsProduct(x);
    ChunkAt(s, x);
  }

  /** Where chunk x starts, counted without multiplication. */
  function Offset(x: nat): nat {
    if x == 0 then 0 else Offset(x - 1) + BatchSize
  }

  lemma {:induction false} OffsetIsProduct(x: nat)
    ensures Offset(x) == x * BatchSize
  {
    if x > 0 {
      OffsetIsProduct(x - 1);
    }
  }

  /** ChunkIsSlice with the start of the chunk given by Offset. */
  lemma {:induction false} ChunkAt<T>(s: seq<T>, x: nat)
    requires x < |Chunks(s)|
    ensures Offset(x) < |s|
    ensures Chunks(s)[x] == s[Offset(x) .. if Offset(x) + BatchSize < |s| then Offset(x) + BatchSize else |s|]
    decreases x
  {
    if |s| <= BatchSize {
      assert Chunks(s) == [s];
      assert s[0..|s|] == s;
    } else {
      ChunksCons(s);
      if x > 0 {
        var rest := s[BatchSize..];
        assert Chunks(s)[x] == Chunks(rest)[x - 1];
        ChunkAt(rest, x - 1);
        var lo := Offset(x - 1);
        var hi := if lo + BatchSize < |rest| then lo + BatchSize else |rest|;
        assert rest[lo..hi] == s[BatchSize + lo..BatchSize + hi] by {
          assert forall j :: 0 <= j < hi - lo ==> rest[lo..hi][j] == s[BatchSize + lo + j];
        }
      }
    }
  }

  lemma ChunksCons<T>(s: seq<T>)
    requires |s| > BatchSize
    ensures Chunks(s) == [s[..BatchSize]] + Chunks(s[BatchSize..])
  {
  }

  /** Every batch but the last is full. */
  lemma {:induction false} ChunksFull<T>(s: seq<T>, x: nat)
    requires x + 1 < |Chunks(s)|
    ensures |Chunks(s)[x]| == BatchSize
    decreases |s|
  {
    if x > 0 {
      ChunksFull(s[BatchSize..], x - 1);
    }
  }
}
