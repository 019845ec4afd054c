/** A stable sort driven by a "may come before" relation, the behaviour
    `Array.prototype.sort` guarantees for a consistent comparator: `le(a, b)`
    holds exactly when the comparator returns a value `<= 0` for `(a, b)`. */
module Sorting {

  /** `le` as a separate symbol, so that the order axioms below fire only
      where a proof mentions `Le` explicitly. */
  ghost predicate Le<T>(le: (T, T) -> bool, a: T, b: T) {
    le(a, b)
  }

  ghost predicate TotalPreorder<T(!new)>(le: (T, T) -> bool) {
    && (forall a, b {:trigger Le(le, a, b)} :: Le(le, a, b) || Le(le, b, a))
    && (forall a, b, c {:trigger Le(le, a, b), Le(le, b, c)} :: Le(le, a, b) && Le(le, b, c) ==> Le(le, a, c))
  }

  predicate SortedBy<T>(s: seq<T>, le: (T, T) -> bool) {
    forall i, j :: 0 <= i < j < |s| ==> le(s[i], s[j])
  }

  /** The comparator ties `a` and `b`. */
  predicate Tied<T>(a: T, b: T, le: (T, T) -> bool) {
    le(a, b) && le(b, a)
  }

  /** The elements of `s` tied with `x`, in their order in `s`. A sort is
      stable when it leaves every such subsequence as it was. */
  function TiedWith<T>(s: seq<T>, x: T, le: (T, T) -> bool): (r: seq<T>)
    ensures |r| <= |s|
  {
    if |s| == 0 then []
    else (if Tied(s[0], x, le) then [s[0]] else []) + TiedWith(s[1..], x, le)
  }

  /** Places `x` after every element of `s` that may precede it. */
  function Insert<T>(s: seq<T>, x: T, le: (T, T) -> bool): (r: seq<T>)
    ensures multiset(r) == multiset(s) + multiset{x}
    ensures |r| == |s| + 1
  {
    if |s| == 0 then [x]
    else if le(s[0], x) then
      assert s == [s[0]] + s[1..];
      [s[0]] + Insert(s[1..], x, le)
    else [x] + s
  }

  /** Insertion sort taking the elements in their original order. */
  function Sort<T>(s: seq<T>, le: (T, T) -> bool): (r: seq<T>)
    ensures multiset(r) == multiset(s)
    ensures |r| == |s|
  {
    if |s| == 0 then []
    else
      assert s == s[..|s| - 1] + [s[|s| - 1]];
      Insert(Sort(s[..|s| - 1], le), s[|s| - 1], le)
  }

  lemma {:induction false} InsertSorted<T(!new)>(s: seq<T>, x: T, le: (T, T) -> bool)
    requires TotalPreorder(le) && SortedBy(s, le)
    ensures SortedBy(Insert(s, x, le), le)
  {
    if |s| > 0 && le(s[0], x) {
      InsertSorted(s[1..], x, le);
      var t := Insert(s[1..], x, le);
      var r := [s[0]] + t;
      assert Insert(s, x, le) == r;
      forall j | 0 < j < |r| ensures le(r[0], r[j]) {
        var e := r[j];
        assert e == t[j - 1];
        assert e in multiset(t);
        assert multiset(t) == multiset(s[1..]) + multiset{x};
        if e != x {
          assert e in multiset(s[1..]);
          assert e in s[1..];
          var k :| 0 <= k < |s[1..]| && s[1..][k] == e;
          assert s[k + 1] == e;
        }
      }
    } else if |s| > 0 {
      var r := [x] + s;
      assert Insert(s, x, le) == r;
      assert Le(le, x, s[0]) by {
        assert Le(le, s[0], x) || Le(le, x, s[0]);
      }
      forall j | 0 < j < |r| ensures le(r[0], r[j]) {
        assert r[j] == s[j - 1];
        if j > 1 {
          assert Le(le, s[0], s[j - 1]);
        }
      }
    }
  }

  /** The sort orders its result. */
  lemma {:induction false} SortSorted<T(!new)>(s: seq<T>, le: (T, T) -> bool)
    requires TotalPreorder(le)
    ensures SortedBy(Sort(s, le), le)
  {
    if |s| > 0 {
      SortSorted(s[..|s| - 1], le);
      InsertSorted(Sort(s[..|s| - 1], le), s[|s| - 1], le);
    }
  }

  lemma {:induction false} TiedWithAppend<T>(a: seq<T>, b: seq<T>, x: T, le: (T, T) -> bool)
    ensures TiedWith(a + b, x, le) == TiedWith(a, x, le) + TiedWith(b, x, le)
  {
    if |a| > 0 {
      assert (a + b)[1..] == a[1..] + b;
      TiedWithAppend(a[1..], b, x, le);
    } else {
      assert a + b == b;
    }
  }

  lemma {:induction false} TiedWithNone<T>(s: seq<T>, x: T, le: (T, T) -> bool)
    requires forall k :: 0 <= k < |s| ==> !Tied(s[k], x, le)
    ensures TiedWith(s, x, le) == []
  {
    if |s| > 0 {
      TiedWithNone(s[1..], x, le);
    }
  }

  lemma SortedTail<T>(s: seq<T>, le: (T, T) -> bool)
    requires |s| > 0 && SortedBy(s, le)
    ensures SortedBy(s[1..], le)
  {
    forall i, j | 0 <= i < j < |s[1..]| ensures le(s[1..][i], s[1..][j]) {
      assert s[1..][i] == s[i + 1] && s[1..][j] == s[j + 1];
    }
  }

  /** In a sorted sequence whose head comes strictly after `y`, nothing is tied with `y`. */
  lemma NothingTiedAfter<T(!new)>(s: seq<T>, y: T, x: T, le: (T, T) -> bool)
    requires TotalPreorder(le) && SortedBy(s, le)
    requires |s| > 0 && !le(s[0], y) && Tied(y, x, le)
    ensures forall k :: 0 <= k < |s| ==> !Tied(s[k], x, le)
  {
    forall k | 0 <= k < |s| ensures !Tied(s[k], x, le) {
      assert le(s[0], s[k]) by {
        if k > 0 {
          assert le(s[0], s[k]);
        }
        assert Le(le, s[0], s[k]) || Le(le, s[k], s[0]);
      }
      assert Le(le, s[0], s[k]);
      assert !Le(le, s[0], y);
      assert !Le(le, s[k], y);
      assert Le(le, x, y);
      assert !Le(le, s[k], x);
    }
  }

  lemma TiedWithCons<T>(a: T, t: seq<T>, x: T, le: (T, T) -> bool)
    ensures TiedWith([a] + t, x, le) == (if Tied(a, x, le) then [a] else []) + TiedWith(t, x, le)
  {
    assert ([a] + t)[0] == a;
    assert ([a] + t)[1..] == t;
  }

  lemma {:induction false} InsertTiedWith<T(!new)>(s: seq<T>, y: T, x: T, le: (T, T) -> bool)
    requires TotalPreorder(le) && SortedBy(s, le)
    ensures TiedWith(Insert(s, y, le), x, le)
            == TiedWith(s, x, le) + (if Tied(y, x, le) then [y] else [])
    decreases |s|, 1
  {
    if |s| == 0 {
      TiedWithCons(y, [], x, le);
    } else if le(s[0], y) {
      InsertTiedWithPast(s, y, x, le);
    } else {
      InsertTiedWithFront(s, y, x, le);
    }
  }

  /** `y` moves past the head of `s`. */
  lemma {:induction false} InsertTiedWithPast<T(!new)>(s: seq<T>, y: T, x: T, le: (T, T) -> bool)
    requires TotalPreorder(le) && SortedBy(s, le)
    requires |s| > 0 && le(s[0], y)
    ensures TiedWith(Insert(s, y, le), x, le)
            == TiedWith(s, x, le) + (if Tied(y, x, le) then [y] else [])
    decreases |s|, 0
  {
    var t := Insert(s[1..], y, le);
    InsertPast(s, y, le);
    TiedWithCons(s[0], t, x, le);
    SortedTail(s, le);
    InsertTiedWith(s[1..], y, x, le);
    TiedWithHead(s, x, le);
  }

  /** Past the head, the insertion keeps the head in front. */
  lemma InsertPast<T>(s: seq<T>, y: T, le: (T, T) -> bool)
    requires |s| > 0 && le(s[0], y)
    ensures Insert(s, y, le) == [s[0]] + Insert(s[1..], y, le)
  {
  }

  lemma TiedWithHead<T>(s: seq<T>, x: T, le: (T, T) -> bool)
    requires |s| > 0
    ensures TiedWith(s, x, le) == (if Tied(s[0], x, le) then [s[0]] else []) + TiedWith(s[1..], x, le)
  {
  }

  /** `y` lands in front of `s`. */
  lemma InsertTiedWithFront<T(!new)>(s: seq<T>, y: T, x: T, le: (T, T) -> bool)
    requires TotalPreorder(le) && SortedBy(s, le)
    requires |s| > 0 && !le(s[0], y)
    ensures TiedWith(Insert(s, y, le), x, le)
            == TiedWith(s, x, le) + (if Tied(y, x, le) then [y] else [])
  {
    assert Insert(s, y, le) == [y] + s;
    TiedWithCons(y, s, x, le);
    if Tied(y, x, le) {
      NothingTiedAfter(s, y, x, le);
      TiedWithNone(s, x, le);
    }
  }

  lemma TiedWithSingle<T>(y: T, x: T, le: (T, T) -> bool)
    ensures TiedWith([y], x, le) == if Tied(y, x, le) then [y] else []
  {
    assert [y][1..] == [];
  }

  /** The sort is stable: the elements tied with any `x` keep their order. */
  lemma {:induction false} SortStable<T(!new)>(s: seq<T>, x: T, le: (T, T) -> bool)
    requires TotalPreorder(le)
    ensures TiedWith(Sort(s, le), x, le) == TiedWith(s, x, le)
  {
    if |s| > 0 {
      var init, last := s[..|s| - 1], s[|s| - 1];
      var sorted := Sort(init, le);
      var own := if Tied(last, x, le) then [last] else [];
      assert s == init + [last];
      SortSorted(init, le);
      calc {
        TiedWith(Sort(s, le), x, le);
        TiedWith(Insert(sorted, last, le), x, le);
        { InsertTiedWith(sorted, last, x, le); }
        TiedWith(sorted, x, le) + own;
        { SortStable(init, x, le); }
        TiedWith(init, x, le) + own;
        { TiedWithSingle(last, x, le); TiedWithAppend(init, [last], x, le); }
        TiedWith(s, x, le);
      }
    }
  }
}
