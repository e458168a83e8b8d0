/** The order of the batch results table: a stable sort by overall score, highest
    first, as `[...results].sort((a, b) => scoreB - scoreA)` performs it (a
    JavaScript engine's `sort` is stable). Here it is an insertion sort on
    sequences, together with the properties that pin its result down. */
module Ranking {
  import opened Analysis

  /** `a.analysis?.overall_score || 0`: an entry without an analysis counts as 0.
      For an integer score `|| 0` changes nothing, since only 0 is falsy. */
  function Score(item: BatchItem): int {
    match item.outcome
    case Analysed(a) => a.overallScore
    case Errored(_) => 0
  }

  predicate NonIncreasing(s: seq<BatchItem>) {
    forall i, j :: 0 <= i < j < |s| ==> Score(s[i]) >= Score(s[j])
  }

  /** The entries scoring `k`, in the order they appear. */
  function WithScore(s: seq<BatchItem>, k: int): seq<BatchItem> {
    if s == [] then []
    else (if Score(s[0]) == k then [s[0]] else []) + WithScore(s[1..], k)
  }

  lemma {:induction false} WithScoreMembers(s: seq<BatchItem>, k: int)
    ensures forall y :: y in WithScore(s, k) ==> y in s && Score(y) == k
    decreases |s|
  {
    if s != [] {
      WithScoreMembers(s[1..], k);
    }
  }

  /** Places `x` in front of the first entry that does not outscore it, so it
      stays ahead of entries with the same score. */
  function Insert(x: BatchItem, t: seq<BatchItem>): (r: seq<BatchItem>)
    ensures |r| == |t| + 1
    ensures forall y :: y in r <==> y == x || y in t
    ensures multiset(r) == multiset(t) + multiset{x}
    decreases |t|
  {
    if t == [] || Score(x) >= Score(t[0]) then [x] + t
    else
      assert t == [t[0]] + t[1..];
      [t[0]] + Insert(x, t[1..])
  }

  lemma {:induction false} InsertSorted(x: BatchItem, t: seq<BatchItem>)
    requires NonIncreasing(t)
    ensures NonIncreasing(Insert(x, t))
    decreases |t|
  {
    if t != [] && Score(x) < Score(t[0]) {
      InsertSorted(x, t[1..]);
      var r := Insert(x, t);
      var tail := Insert(x, t[1..]);
      assert r == [t[0]] + tail;
      forall j | 0 < j < |r|
        ensures Score(r[0]) >= Score(r[j])
      {
        assert r[j] in tail;
      }
    }
  }

  /** The display order of the results. */
  function SortByScore(s: seq<BatchItem>): (r: seq<BatchItem>)
    ensures |r| == |s|
    ensures NonIncreasing(r)
    ensures multiset(r) == multiset(s)
    decreases |s|
  {
    if s == [] then []
    else
      var rest := SortByScore(s[1..]);
      InsertSorted(s[0], rest);
      assert s == [s[0]] + s[1..];
      Insert(s[0], rest)
  }

  /** The entries of a one-element sequence that score `k`. */
  function Keep(x: BatchItem, k: int): seq<BatchItem> {
    if Score(x) == k then [x] else []
  }

  lemma WithScoreCons(x: BatchItem, t: seq<BatchItem>, k: int)
    ensures WithScore([x] + t, k) == Keep(x, k) + WithScore(t, k)
  {
    assert ([x] + t)[1..] == t;
  }

  lemma NonIncreasingTail(t: seq<BatchItem>)
    requires NonIncreasing(t) && t != []
    ensures NonIncreasing(t[1..])
  {
    forall i, j | 0 <= i < j < |t| - 1
      ensures Score(t[1..][i]) >= Score(t[1..][j])
    {
      assert t[1..][i] == t[i + 1] && t[1..][j] == t[j + 1];
    }
  }

  /** Entries of different scores never both survive one filter. */
  lemma KeepCommute(x: BatchItem, y: BatchItem, k: int)
    requires Score(x) != Score(y)
    ensures Keep(y, k) + Keep(x, k) == Keep(x, k) + Keep(y, k)
  {
  }

  /** Moving an entry past one of a different score leaves every filter alone. */
  lemma SwapWithScore(x: BatchItem, y: BatchItem, tail: seq<BatchItem>, rest: seq<BatchItem>, k: int)
    requires Score(x) != Score(y)
    requires WithScore(tail, k) == WithScore([x] + rest, k)
    ensures WithScore([y] + tail, k) == WithScore([x] + ([y] + rest), k)
  {
    calc {
      WithScore([y] + tail, k);
      { WithScoreCons(y, tail, k); }
      Keep(y, k) + WithScore(tail, k);
      { WithScoreCons(x, rest, k); }
      Keep(y, k) + (Keep(x, k) + WithScore(rest, k));
      { KeepCommute(x, y, k); }
      Keep(x, k) + (Keep(y, k) + WithScore(rest, k));
      { WithScoreCons(y, rest, k); }
      Keep(x, k) + WithScore([y] + rest, k);
      { WithScoreCons(x, [y] + rest, k); }
      WithScore([x] + ([y] + rest), k);
    }
  }

  lemma {:induction false} InsertWithScore(x: BatchItem, t: seq<BatchItem>, k: int)
    requires NonIncreasing(t)
    ensures WithScore(Insert(x, t), k) == WithScore([x] + t, k)
    decreases |t|
  {
    if t != [] && Score(x) < Score(t[0]) {
      var tail := Insert(x, t[1..]);
      assert Insert(x, t) == [t[0]] + tail;
      NonIncreasingTail(t);
      InsertWithScore(x, t[1..], k);
      SwapWithScore(x, t[0], tail, t[1..], k);
      assert t == [t[0]] + t[1..];
    }
  }

  /** Stability: the entries with any one score keep their relative order. */
  lemma {:induction false} SortStable(s: seq<BatchItem>, k: int)
    ensures WithScore(SortByScore(s), k) == WithScore(s, k)
    decreases |s|
  {
    if s != [] {
      var rest := SortByScore(s[1..]);
      InsertWithScore(s[0], rest, k);
      SortStable(s[1..], k);
      assert ([s[0]] + rest)[1..] == rest;
    }
  }

  /** In a non-increasing sequence the first entry scores at least as much as
      any entry. */
  lemma HeadIsMax(b: seq<BatchItem>, y: BatchItem)
    requires NonIncreasing(b) && y in b
    ensures Score(b[0]) >= Score(y)
  {
    var j :| 0 <= j < |b| && b[j] == y;
  }

  lemma WithScoreOfHead(s: seq<BatchItem>)
    requires s != []
    ensures WithScore(s, Score(s[0])) != []
  {
  }

  /** Two non-increasing sequences that agree on the entries of every score are
      the same sequence. */
  lemma {:induction false} SortedUnique(a: seq<BatchItem>, b: seq<BatchItem>)
    requires NonIncreasing(a) && NonIncreasing(b)
    requires forall k :: WithScore(a, k) == WithScore(b, k)
    ensures a == b
    decreases |a|
  {
    if a == [] {
      if b != [] {
        WithScoreOfHead(b);
        assert false;
      }
    } else if b == [] {
      WithScoreOfHead(a);
      assert false;
    } else {
      var ka, kb := Score(a[0]), Score(b[0]);
      WithScoreMembers(a, kb);
      WithScoreMembers(b, ka);
      assert WithScore(b, ka)[0] in WithScore(b, ka);
      HeadIsMax(b, WithScore(b, ka)[0]);
      assert WithScore(a, kb)[0] in WithScore(a, kb);
      HeadIsMax(a, WithScore(a, kb)[0]);
      assert ka == kb;
      assert WithScore(a, ka) == [a[0]] + WithScore(a[1..], ka);
      assert WithScore(b, ka) == [b[0]] + WithScore(b[1..], ka);
      forall k
        ensures WithScore(a[1..], k) == WithScore(b[1..], k)
      {
        if k == ka {
          assert ([a[0]] + WithScore(a[1..], ka))[1..] == WithScore(a[1..], ka);
          assert ([b[0]] + WithScore(b[1..], ka))[1..] == WithScore(b[1..], ka);
        } else {
          assert WithScore(a, k) == WithScore(a[1..], k);
          assert WithScore(b, k) == WithScore(b[1..], k);
        }
      }
      SortedUnique(a[1..], b[1..]);
      assert a == [a[0]] + a[1..];
      assert b == [b[0]] + b[1..];
    }
  }

  /** The display order is the one and only stable non-increasing arrangement:
      any sequence that is non-increasing and keeps each score's entries in
      input order is exactly what the sort produces. */
  lemma SortCharacterised(s: seq<BatchItem>, r: seq<BatchItem>)
    requires NonIncreasing(r)
    requires forall k :: WithScore(r, k) == WithScore(s, k)
    ensures r == SortByScore(s)
  {
    forall k
      ensures WithScore(r, k) == WithScore(SortByScore(s), k)
    {
      SortStable(s, k);
    }
    SortedUnique(r, SortByScore(s));
  }

  /** Sorting an already ordered list changes nothing, so sorting twice is
      sorting once. */
  lemma SortIdempotent(s: seq<BatchItem>)
    ensures SortByScore(SortByScore(s)) == SortByScore(s)
  {
    var r := SortByScore(s);
    forall k
      ensures WithScore(r, k) == WithScore(SortByScore(r), k)
    {
      SortStable(r, k);
    }
    SortedUnique(r, SortByScore(r));
  }
}
