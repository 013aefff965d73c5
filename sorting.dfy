/**
 * Python's `sorted`, which is stable, on lists of dict items: ascending by key
 * (`sorted(d.items())` with distinct keys) or descending by amount
 * (`sorted(d.items(), key=lambda x: x[1], reverse=True)`, which keeps equal
 * amounts in their original order).
 */
module Sorting {
  import opened Totals
  import opened StringOrder

  datatype SortKey = ByKeyAscending | ByAmountDescending

  /** `a` may stand before `b` in the sorted output. */
  predicate Before(k: SortKey, a: Line, b: Line)
  {
    match k
    case ByKeyAscending => StrLe(a.key, b.key)
    case ByAmountDescending => a.amount >= b.amount
  }

  /** `a` and `b` compare equal under the sort key. */
  predicate Tied(k: SortKey, a: Line, b: Line)
  {
    Before(k, a, b) && Before(k, b, a)
  }

  lemma BeforeTotal(k: SortKey, a: Line, b: Line)
    ensures Before(k, a, b) || Before(k, b, a)
  {
    if k.ByKeyAscending? {
      StrLeTotal(a.key, b.key);
    }
  }

  lemma BeforeTransitive(k: SortKey, a: Line, b: Line, c: Line)
    requires Before(k, a, b) && Before(k, b, c)
    ensures Before(k, a, c)
  {
    if k.ByKeyAscending? {
      StrLeTransitive(a.key, b.key, c.key);
    }
  }

  ghost predicate SortedBy(k: SortKey, s: seq<Line>)
  {
    forall i, j :: 0 <= i < j < |s| ==> Before(k, s[i], s[j])
  }

  /** Inserts `x` after every leading element that may stand before it. */
  function Insert(k: SortKey, x: Line, s: seq<Line>): seq<Line>
  {
    if s == [] then [x]
    else if Before(k, s[0], x) then [s[0]] + Insert(k, x, s[1..])
    else [x] + s
  }

  /** Stable insertion sort: each element, in input order, goes after the ones tied with it. */
  function Sort(k: SortKey, s: seq<Line>): seq<Line>
  {
    if s == [] then [] else Insert(k, s[|s| - 1], Sort(k, s[..|s| - 1]))
  }

  /** The elements of `s` tied with `y`, in the order `s` holds them. */
  function TiesWith(k: SortKey, s: seq<Line>, y: Line): seq<Line>
  {
    if s == [] then [] else (if Tied(k, s[0], y) then [s[0]] else []) + TiesWith(k, s[1..], y)
  }

  lemma {:induction false} TiesWithAppend(k: SortKey, a: seq<Line>, b: seq<Line>, y: Line)
    ensures TiesWith(k, a + b, y) == TiesWith(k, a, y) + TiesWith(k, b, y)
  {
    if a == [] {
      assert a + b == b;
    } else {
      assert (a + b)[1..] == a[1..] + b;
      TiesWithAppend(k, a[1..], b, y);
    }
  }

  lemma {:induction false} NoTies(k: SortKey, s: seq<Line>, y: Line)
    requires forall i :: 0 <= i < |s| ==> !Tied(k, s[i], y)
    ensures TiesWith(k, s, y) == []
  {
    if s != [] {
      NoTies(k, s[1..], y);
    }
  }

  lemma {:induction false} InsertPermutes(k: SortKey, x: Line, s: seq<Line>)
    ensures multiset(Insert(k, x, s)) == multiset(s) + multiset{x}
    ensures |Insert(k, x, s)| == |s| + 1
  {
    if s != [] && Before(k, s[0], x) {
      InsertPermutes(k, x, s[1..]);
      assert s == [s[0]] + s[1..];
    }
  }

  lemma SortedTail(k: SortKey, s: seq<Line>)
    requires SortedBy(k, s) && s != []
    ensures SortedBy(k, s[1..])
  {
  }

  /** What may stand after `b` in `s` and `x` may stand after `b` in `Insert(k, x, s)`. */
  lemma {:induction false} InsertBounded(k: SortKey, b: Line, x: Line, s: seq<Line>)
    requires forall i :: 0 <= i < |s| ==> Before(k, b, s[i])
    requires Before(k, b, x)
    ensures forall j :: 0 <= j < |Insert(k, x, s)| ==> Before(k, b, Insert(k, x, s)[j])
  {
    if s != [] && Before(k, s[0], x) {
      InsertBounded(k, b, x, s[1..]);
      assert Insert(k, x, s) == [s[0]] + Insert(k, x, s[1..]);
    }
  }

  lemma {:induction false} InsertSorted(k: SortKey, x: Line, s: seq<Line>)
    requires SortedBy(k, s)
    ensures SortedBy(k, Insert(k, x, s))
  {
    if s == [] {
    } else if Before(k, s[0], x) {
      var rest := Insert(k, x, s[1..]);
      SortedTail(k, s);
      InsertSorted(k, x, s[1..]);
      InsertBounded(k, s[0], x, s[1..]);
      assert Insert(k, x, s) == [s[0]] + rest;
    } else {
      BeforeTotal(k, s[0], x);
      forall j | 0 <= j < |s|
        ensures Before(k, x, s[j])
      {
        if j > 0 {
          BeforeTransitive(k, x, s[0], s[j]);
        }
      }
    }
  }

  /** In a sorted list that `x` goes in front of, nothing is tied with anything tied with `x`. */
  lemma NothingTiedBehind(k: SortKey, x: Line, s: seq<Line>, y: Line)
    requires SortedBy(k, s) && s != [] && !Before(k, s[0], x) && Tied(k, x, y)
    ensures TiesWith(k, s, y) == []
  {
    forall i | 0 <= i < |s|
      ensures !Tied(k, s[i], y)
    {
      if Tied(k, s[i], y) {
        BeforeTransitive(k, s[i], y, x);
        if i > 0 {
          BeforeTransitive(k, s[0], s[i], x);
        }
      }
    }
    NoTies(k, s, y);
  }

  /** Inserting into a sorted list places `x` after every element tied with it. */
  lemma {:induction false} InsertStable(k: SortKey, x: Line, s: seq<Line>, y: Line)
    requires SortedBy(k, s)
    ensures TiesWith(k, Insert(k, x, s), y) == TiesWith(k, s, y) + TiesWith(k, [x], y)
    decreases |s|, 1
  {
    if s == [] {
    } else if Before(k, s[0], x) {
      InsertStableBehind(k, x, s, y);
    } else {
      if Tied(k, x, y) {
        NothingTiedBehind(k, x, s, y);
      }
      TiesWithAppend(k, [x], s, y);
    }
  }

  /** The case of `InsertStable` where `x` goes behind the head of `s`. */
  lemma {:induction false} InsertStableBehind(k: SortKey, x: Line, s: seq<Line>, y: Line)
    requires SortedBy(k, s) && s != [] && Before(k, s[0], x)
    ensures TiesWith(k, Insert(k, x, s), y) == TiesWith(k, s, y) + TiesWith(k, [x], y)
    decreases |s|, 0
  {
    var head, tail := s[0], s[1..];
    var rest := Insert(k, x, tail);
    SortedTail(k, s);
    InsertStable(k, x, tail, y);
    var heads := TiesWith(k, [head], y);
    calc {
      TiesWith(k, Insert(k, x, s), y);
      { assert Insert(k, x, s) == [head] + rest; TiesWithAppend(k, [head], rest, y); }
      heads + TiesWith(k, rest, y);
      heads + (TiesWith(k, tail, y) + TiesWith(k, [x], y));
      (heads + TiesWith(k, tail, y)) + TiesWith(k, [x], y);
      { assert [head] + tail == s; TiesWithAppend(k, [head], tail, y); }
      TiesWith(k, s, y) + TiesWith(k, [x], y);
    }
  }

  lemma SortSingleton(k: SortKey, x: Line)
    ensures Sort(k, [x]) == [x]
  {
    assert [x][..0] == [];
  }

  lemma {:induction false} InsertAtEnd(k: SortKey, x: Line, s: seq<Line>)
    requires forall i :: 0 <= i < |s| ==> Before(k, s[i], x)
    ensures Insert(k, x, s) == s + [x]
  {
    if s != [] {
      InsertAtEnd(k, x, s[1..]);
      assert s == [s[0]] + s[1..];
    }
  }

  /** A list that is already in order is left as it is. */
  lemma {:induction false} SortKeepsSorted(k: SortKey, s: seq<Line>)
    requires SortedBy(k, s)
    ensures Sort(k, s) == s
  {
    if s != [] {
      var init := s[..|s| - 1];
      assert SortedBy(k, init);
      SortKeepsSorted(k, init);
      InsertAtEnd(k, s[|s| - 1], init);
    }
  }

  lemma {:induction false} SortPermutes(k: SortKey, s: seq<Line>)
    ensures multiset(Sort(k, s)) == multiset(s)
    ensures |Sort(k, s)| == |s|
  {
    if s != [] {
      var init := s[..|s| - 1];
      SortPermutes(k, init);
      InsertPermutes(k, s[|s| - 1], Sort(k, init));
      assert s == init + [s[|s| - 1]];
    }
  }

  lemma {:induction false} SortSorted(k: SortKey, s: seq<Line>)
    ensures SortedBy(k, Sort(k, s))
  {
    if s != [] {
      SortSorted(k, s[..|s| - 1]);
      InsertSorted(k, s[|s| - 1], Sort(k, s[..|s| - 1]));
    }
  }

  /** Elements that compare equal keep their original relative order. */
  lemma {:induction false} SortStable(k: SortKey, s: seq<Line>, y: Line)
    ensures TiesWith(k, Sort(k, s), y) == TiesWith(k, s, y)
  {
    if s != [] {
      var init := s[..|s| - 1];
      SortStable(k, init, y);
      SortSorted(k, init);
      InsertStable(k, s[|s| - 1], Sort(k, init), y);
      assert s == init + [s[|s| - 1]];
      TiesWithAppend(k, init, [s[|s| - 1]], y);
    }
  }

  lemma {:induction false} InsertSum(k: SortKey, x: Line, s: seq<Line>)
    ensures SumAmounts(Insert(k, x, s)) == SumAmounts(s) + x.amount
  {
    if s != [] && Before(k, s[0], x) {
      InsertSum(k, x, s[1..]);
      assert Insert(k, x, s)[1..] == Insert(k, x, s[1..]);
    }
  }

  lemma {:induction false} SortSum(k: SortKey, s: seq<Line>)
    ensures SumAmounts(Sort(k, s)) == SumAmounts(s)
  {
    if s != [] {
      var init := s[..|s| - 1];
      SortSum(k, init);
      InsertSum(k, s[|s| - 1], Sort(k, init));
      assert s == init + [s[|s| - 1]];
      SumAmountsAppend(init, [s[|s| - 1]]);
    }
  }

  ghost predicate DistinctKeys(s: seq<Line>)
  {
    forall i, j :: 0 <= i < j < |s| ==> s[i].key != s[j].key
  }

  /** A key that neither `s` nor `x` has is not in `Insert(k, x, s)`. */
  lemma {:induction false} InsertAvoids(k: SortKey, key: string, x: Line, s: seq<Line>)
    requires forall i :: 0 <= i < |s| ==> s[i].key != key
    requires x.key != key
    ensures forall j :: 0 <= j < |Insert(k, x, s)| ==> Insert(k, x, s)[j].key != key
  {
    if s != [] && Before(k, s[0], x) {
      InsertAvoids(k, key, x, s[1..]);
      assert Insert(k, x, s) == [s[0]] + Insert(k, x, s[1..]);
    }
  }

  lemma {:induction false} InsertDistinct(k: SortKey, x: Line, s: seq<Line>)
    requires DistinctKeys(s)
    requires forall i :: 0 <= i < |s| ==> s[i].key != x.key
    ensures DistinctKeys(Insert(k, x, s))
  {
    if s != [] && Before(k, s[0], x) {
      var rest := Insert(k, x, s[1..]);
      InsertDistinct(k, x, s[1..]);
      InsertAvoids(k, s[0].key, x, s[1..]);
      assert Insert(k, x, s) == [s[0]] + rest;
    }
  }

  lemma {:induction false} SortDistinct(k: SortKey, s: seq<Line>)
    requires DistinctKeys(s)
    ensures DistinctKeys(Sort(k, s))
  {
    if s != [] {
      var init, last := s[..|s| - 1], s[|s| - 1];
      SortDistinct(k, init);
      SortPermutes(k, init);
      forall i | 0 <= i < |Sort(k, init)|
        ensures Sort(k, init)[i].key != last.key
      {
        assert Sort(k, init)[i] in multiset(init);
        var m :| 0 <= m < |init| && init[m] == Sort(k, init)[i];
      }
      InsertDistinct(k, last, Sort(k, init));
    }
  }

  /** Sorting twice sorts once. */
  lemma SortIdempotent(k: SortKey, s: seq<Line>)
    ensures Sort(k, Sort(k, s)) == Sort(k, s)
  {
    SortSorted(k, s);
    SortKeepsSorted(k, Sort(k, s));
  }
}
