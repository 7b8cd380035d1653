/**
 * Column aggregates the advisors apply to weekly series: sums and means,
 * trailing windows, maxima and minima, the non-null filter applied before a
 * regression, and the inner join on week-ending dates that aligns an
 * instrument with its benchmark.  Values are exact reals.
 */
module SeriesMath {
  import opened Wrappers

  function Abs(x: real): (r: real)
    ensures r >= 0.0
    ensures r == x || r == -x
  {
    if x < 0.0 then -x else x
  }

  function Min(x: real, y: real): (r: real)
    ensures r <= x && r <= y
    ensures r == x || r == y
  {
    if x <= y then x else y
  }

  function Max(x: real, y: real): (r: real)
    ensures x <= r && y <= r
    ensures r == x || r == y
  {
    if x >= y then x else y
  }

  /** The column `f` of a series of rows. */
  function Column<T>(rows: seq<T>, f: T -> real): (c: seq<real>)
    ensures |c| == |rows|
    ensures forall i :: 0 <= i < |rows| ==> c[i] == f(rows[i])
  {
    seq(|rows|, i requires 0 <= i < |rows| => f(rows[i]))
  }

  /** Sum of a column; 0 for an empty column. */
  function Sum(s: seq<real>): real
  {
    if s == [] then 0.0 else s[0] + Sum(s[1..])
  }

  /** Arithmetic mean of a non-empty column. */
  function Mean(s: seq<real>): real
    requires |s| > 0
  {
    Sum(s) / (|s| as real)
  }

  lemma {:induction false} SumOfPositives(s: seq<real>)
    requires |s| > 0
    requires forall i :: 0 <= i < |s| ==> s[i] > 0.0
    ensures Sum(s) > 0.0
  {
    if |s| > 1 {
      SumOfPositives(s[1..]);
    } else {
      assert s[1..] == [];
    }
  }

  /** A mean of positive values (a moving average of positive prices) is positive. */
  lemma MeanOfPositives(s: seq<real>)
    requires |s| > 0
    requires forall i :: 0 <= i < |s| ==> s[i] > 0.0
    ensures Mean(s) > 0.0
  {
    SumOfPositives(s);
  }

  /** Sum distributes over an element-wise difference of two columns. */
  lemma {:induction false} SumOfDifference(a: seq<real>, b: seq<real>, d: seq<real>)
    requires |a| == |b| == |d|
    requires forall i :: 0 <= i < |d| ==> d[i] == a[i] - b[i]
    ensures Sum(d) == Sum(a) - Sum(b)
  {
    if |d| > 0 {
      SumOfDifference(a[1..], b[1..], d[1..]);
    }
  }

  /** The mean of element-wise differences is the difference of the means. */
  lemma MeanOfDifference(a: seq<real>, b: seq<real>, d: seq<real>)
    requires |a| == |b| == |d| > 0
    requires forall i :: 0 <= i < |d| ==> d[i] == a[i] - b[i]
    ensures Mean(d) == Mean(a) - Mean(b)
  {
    SumOfDifference(a, b, d);
    DivideDifference(Sum(a), Sum(b), |d| as real);
  }

  /** A non-empty column strictly below `m` sums to less than `|s|` times `m`. */
  lemma {:induction false} SumBelow(s: seq<real>, m: real)
    requires |s| > 0
    requires forall i :: 0 <= i < |s| ==> s[i] < m
    ensures Sum(s) < (|s| as real) * m
  {
    if |s| == 1 {
      assert s[1..] == [];
    } else {
      SumBelow(s[1..], m);
      assert (|s| as real) * m == m + ((|s| - 1) as real) * m;
    }
  }

  /** A column bounded below by `m` sums to at least `|s|` times `m`. */
  lemma {:induction false} SumAtLeast(s: seq<real>, m: real)
    requires forall i :: 0 <= i < |s| ==> m <= s[i]
    ensures (|s| as real) * m <= Sum(s)
  {
    if s != [] {
      SumAtLeast(s[1..], m);
      assert (|s| as real) * m == m + ((|s| - 1) as real) * m;
    }
  }

  /** Every value strictly below `m` puts the mean strictly below `m`. */
  lemma MeanBelow(s: seq<real>, m: real)
    requires |s| > 0
    requires forall i :: 0 <= i < |s| ==> s[i] < m
    ensures Mean(s) < m
  {
    SumBelow(s, m);
    DivideBelow(Sum(s), |s| as real, m);
  }

  /** Every value at least `m` puts the mean at least `m`. */
  lemma MeanAtLeast(s: seq<real>, m: real)
    requires |s| > 0
    requires forall i :: 0 <= i < |s| ==> m <= s[i]
    ensures m <= Mean(s)
  {
    SumAtLeast(s, m);
    DivideAtLeast(Sum(s), |s| as real, m);
  }

  lemma DivideBelow(x: real, n: real, m: real)
    requires n > 0.0 && x < n * m
    ensures x / n < m
  {
    assert x / n * n == x;
  }

  lemma DivideAtLeast(x: real, n: real, m: real)
    requires n > 0.0 && n * m <= x
    ensures m <= x / n
  {
    assert x / n * n == x;
  }

  lemma DivideDifference(x: real, y: real, n: real)
    requires n > 0.0
    ensures (x - y) / n == x / n - y / n
  {
  }

  /**
   * The last `n` items of a sequence, or all of it when it is shorter
   * (`iloc[-n:]` for a positive `n`).
   */
  function Tail<T>(s: seq<T>, n: nat): (t: seq<T>)
    requires n > 0
    ensures |t| == if |s| < n then |s| else n
    ensures t == s[|s| - |t|..]
  {
    if |s| < n then s else s[|s| - n..]
  }

  /** Largest value of a non-empty column: an upper bound that is attained. */
  function MaxOf(s: seq<real>): (m: real)
    requires |s| > 0
    ensures forall i :: 0 <= i < |s| ==> s[i] <= m
    ensures exists i :: 0 <= i < |s| && s[i] == m
  {
    if |s| == 1 then s[0]
    else
      var rest := MaxOf(s[1..]);
      assert forall i :: 1 <= i < |s| ==> s[i] == s[1..][i - 1];
      Max(s[0], rest)
  }

  /** Smallest value of a non-empty column: a lower bound that is attained. */
  function MinOf(s: seq<real>): (m: real)
    requires |s| > 0
    ensures forall i :: 0 <= i < |s| ==> m <= s[i]
    ensures exists i :: 0 <= i < |s| && s[i] == m
  {
    if |s| == 1 then s[0]
    else
      var rest := MinOf(s[1..]);
      assert forall i :: 1 <= i < |s| ==> s[i] == s[1..][i - 1];
      Min(s[0], rest)
  }

  /** Indices of the non-null entries of a column. */
  function PresentIndices(s: seq<Option<real>>): set<int>
  {
    set i | 0 <= i < |s| && s[i].Some?
  }

  /**
   * The non-null values of a column, in order (`dropna()`): they all come
   * from the column, and a column with no gaps is kept as it is.
   */
  function Present(s: seq<Option<real>>): (p: seq<real>)
    ensures |p| <= |s|
    ensures forall j :: 0 <= j < |p| ==> Some(p[j]) in s
    ensures (forall i :: 0 <= i < |s| ==> s[i].Some?) ==>
              |p| == |s| && forall i :: 0 <= i < |s| ==> p[i] == s[i].value
    ensures (forall i :: 0 <= i < |s| && s[i].Some? ==> s[i].value > 0.0) ==>
              forall j :: 0 <= j < |p| ==> p[j] > 0.0
  {
    if s == [] then []
    else
      var init := s[..|s| - 1];
      var last := s[|s| - 1];
      assert s == init + [last];
      Present(init) + (if last.Some? then [last.value] else [])
  }

  /** There is one non-null value per non-null entry of the column. */
  lemma {:induction false} PresentCountsEntries(s: seq<Option<real>>)
    ensures |Present(s)| == |PresentIndices(s)|
  {
    if s != [] {
      var init := s[..|s| - 1];
      PresentCountsEntries(init);
      assert PresentIndices(s) == PresentIndices(init) + (if s[|s| - 1].Some? then {|s| - 1} else {});
    }
  }

  /** Every non-null value of the column is kept. */
  lemma {:induction false} PresentKeepsEveryValue(s: seq<Option<real>>)
    ensures forall i :: 0 <= i < |s| && s[i].Some? ==> s[i].value in Present(s)
  {
    if s != [] {
      var init := s[..|s| - 1];
      PresentKeepsEveryValue(init);
      assert forall i :: 0 <= i < |init| ==> init[i] == s[i];
    }
  }

  /** Filtering a concatenation filters each part and keeps them in order. */
  lemma {:induction false} PresentOfConcat(s: seq<Option<real>>, t: seq<Option<real>>)
    ensures Present(s + t) == Present(s) + Present(t)
  {
    if t != [] {
      var init := t[..|t| - 1];
      assert (s + t)[..|s + t| - 1] == s + init;
      PresentOfConcat(s, init);
    } else {
      assert s + t == s;
    }
  }

  /** The first row of `rows` dated `d`, if any. */
  function FindDate<B>(rows: seq<B>, date: B -> int, d: int): (r: Option<B>)
    ensures r.Some? ==> r.value in rows && date(r.value) == d
    ensures r.None? ==> forall i :: 0 <= i < |rows| ==> date(rows[i]) != d
  {
    if rows == [] then None
    else if date(rows[0]) == d then Some(rows[0])
    else FindDate(rows[1..], date, d)
  }

  /**
   * Inner join of two dated series on their dates: one pair per row of
   * `left` whose date occurs in `right`, paired with the first such row of
   * `right`, in the order of `left`.
   */
  function InnerJoin<A, B>(left: seq<A>, right: seq<B>, dl: A -> int, dr: B -> int): (j: seq<(A, B)>)
    ensures |j| <= |left|
    ensures forall k :: 0 <= k < |j| ==> j[k].0 in left && FindDate(right, dr, dl(j[k].0)) == Some(j[k].1)
  {
    if left == [] then []
    else
      var rest := InnerJoin(left[1..], right, dl, dr);
      match FindDate(right, dr, dl(left[0]))
      case Some(b) => [(left[0], b)] + rest
      case None => rest
  }

  /** Every row of `left` whose date occurs in `right` is joined, with the first row of that date. */
  lemma {:induction false} JoinKeepsMatchedRows<A, B>(left: seq<A>, right: seq<B>, dl: A -> int, dr: B -> int)
    ensures forall i :: 0 <= i < |left| && FindDate(right, dr, dl(left[i])).Some? ==>
              (left[i], FindDate(right, dr, dl(left[i])).value) in InnerJoin(left, right, dl, dr)
  {
    if left != [] {
      JoinKeepsMatchedRows(left[1..], right, dl, dr);
      assert forall i :: 1 <= i < |left| ==> left[i] == left[1..][i - 1];
    }
  }

  /** The dates of a series strictly increase. */
  predicate DatesIncrease<T>(xs: seq<T>, date: T -> int)
  {
    forall a, b :: 0 <= a < b < |xs| ==> date(xs[a]) < date(xs[b])
  }

  /** When the dates of `left` strictly increase, so do the dates of the join. */
  lemma {:induction false} JoinKeepsDateOrder<A, B>(left: seq<A>, right: seq<B>, dl: A -> int, dr: B -> int)
    requires DatesIncrease(left, dl)
    ensures forall p, q :: 0 <= p < q < |InnerJoin(left, right, dl, dr)| ==>
              dl(InnerJoin(left, right, dl, dr)[p].0) < dl(InnerJoin(left, right, dl, dr)[q].0)
  {
    if left != [] {
      var tail := left[1..];
      TailDatesIncrease(left, dl);
      JoinKeepsDateOrder(tail, right, dl, dr);
      var rest := InnerJoin(tail, right, dl, dr);
      match FindDate(right, dr, dl(left[0])) {
        case None =>
          assert InnerJoin(left, right, dl, dr) == rest;
        case Some(x) =>
          JoinRowsAfterFirst(left, right, dl, dr);
          PrependKeepsOrder((left[0], x), rest, dl);
          assert InnerJoin(left, right, dl, dr) == [(left[0], x)] + rest;
      }
    }
  }

  lemma TailDatesIncrease<T>(xs: seq<T>, date: T -> int)
    requires |xs| > 0 && DatesIncrease(xs, date)
    ensures DatesIncrease(xs[1..], date)
  {
    forall a, b | 0 <= a < b < |xs| - 1
      ensures date(xs[1..][a]) < date(xs[1..][b])
    {
      assert xs[1..][a] == xs[a + 1] && xs[1..][b] == xs[b + 1];
    }
  }

  /** Every row joined from the rest of an ordered `left` is dated after its first row. */
  lemma JoinRowsAfterFirst<A, B>(left: seq<A>, right: seq<B>, dl: A -> int, dr: B -> int)
    requires |left| > 0 && DatesIncrease(left, dl)
    ensures forall k :: 0 <= k < |InnerJoin(left[1..], right, dl, dr)| ==>
              dl(left[0]) < dl(InnerJoin(left[1..], right, dl, dr)[k].0)
  {
    var tail := left[1..];
    var rest := InnerJoin(tail, right, dl, dr);
    forall k | 0 <= k < |rest|
      ensures dl(left[0]) < dl(rest[k].0)
    {
      var i :| 0 <= i < |tail| && tail[i] == rest[k].0;
      assert tail[i] == left[i + 1];
    }
  }

  lemma PrependKeepsOrder<A, B>(x: (A, B), rest: seq<(A, B)>, dl: A -> int)
    requires forall p, q :: 0 <= p < q < |rest| ==> dl(rest[p].0) < dl(rest[q].0)
    requires forall k :: 0 <= k < |rest| ==> dl(x.0) < dl(rest[k].0)
    ensures forall p, q :: 0 <= p < q < |[x] + rest| ==> dl(([x] + rest)[p].0) < dl(([x] + rest)[q].0)
  {
    var j := [x] + rest;
    forall p, q | 0 <= p < q < |j|
      ensures dl(j[p].0) < dl(j[q].0)
    {
      assert j[q] == rest[q - 1];
      if p > 0 {
        assert j[p] == rest[p - 1];
      }
    }
  }

  /** When every date of `left` occurs in `right`, the join keeps every row of `left`. */
  lemma {:induction false} JoinKeepsCoveredRows<A, B>(left: seq<A>, right: seq<B>, dl: A -> int, dr: B -> int)
    requires forall i :: 0 <= i < |left| ==> FindDate(right, dr, dl(left[i])).Some?
    ensures |InnerJoin(left, right, dl, dr)| == |left|
  {
    if left != [] {
      assert forall i :: 1 <= i < |left| ==> left[1..][i - 1] == left[i];
      JoinKeepsCoveredRows(left[1..], right, dl, dr);
    }
  }
}
