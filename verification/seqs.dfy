/** Sequence utilities shared by the checkout components: duplicate-freedom
    and the first-occurrence de-duplication that `[...new Set(xs)]` performs. */
module Seqs {

  predicate NoDup<T(==)>(s: seq<T>) {
    forall i, j :: 0 <= i < j < |s| ==> s[i] != s[j]
  }

  /** Folds `s` into `acc`, adding each element not seen yet at the end,
      exactly as a JavaScript `Set` records insertion order. */
  function DistinctInto<T(==,!new)>(acc: seq<T>, s: seq<T>): (r: seq<T>)
    requires NoDup(acc)
    ensures NoDup(r)
    ensures |acc| <= |r| && r[..|acc|] == acc
    ensures forall x :: x in r <==> x in acc || x in s
    decreases |s|
  {
    if |s| == 0 then acc
    else if s[0] in acc then DistinctInto(acc, s[1..])
    else
      var acc' := acc + [s[0]];
      var r := DistinctInto(acc', s[1..]);
      assert r[..|acc|] == r[..|acc'|][..|acc|];
      assert forall x :: x in s <==> x == s[0] || x in s[1..];
      r
  }

  /** `[...new Set(s)]`: the distinct elements of `s` in order of first occurrence. */
  function Distinct<T(==,!new)>(s: seq<T>): (r: seq<T>)
    ensures NoDup(r)
    ensures forall x :: x in r <==> x in s
    ensures |s| > 0 ==> |r| > 0 && r[0] == s[0]
  {
    DistinctAfterHead(s);
    DistinctInto([], s)
  }

  lemma DistinctAfterHead<T(!new)>(s: seq<T>)
    ensures |s| > 0 ==> |DistinctInto([], s)| > 0 && DistinctInto([], s)[0] == s[0]
  {
    if |s| > 0 {
      var r := DistinctInto([s[0]], s[1..]);
      assert r[..1] == [s[0]];
    }
  }

  /** Number of occurrences of `x` in `s`. */
  function Count<T(==)>(s: seq<T>, x: T): (n: nat)
    ensures n <= |s|
    ensures n == 0 <==> x !in s
  {
    if |s| == 0 then 0
    else (if s[0] == x then 1 else 0) + Count(s[1..], x)
  }

  lemma {:induction false} NoDupCountOne<T>(s: seq<T>, x: T)
    requires NoDup(s) && x in s
    ensures Count(s, x) == 1
  {
    if s[0] == x {
      assert x !in s[1..] by {
        forall j | 0 <= j < |s[1..]| ensures s[1..][j] != x {
          assert s[1..][j] == s[j + 1];
        }
      }
    } else {
      assert NoDup(s[1..]) by {
        forall i, j | 0 <= i < j < |s[1..]| ensures s[1..][i] != s[1..][j] {
          assert s[1..][i] == s[i + 1] && s[1..][j] == s[j + 1];
        }
      }
      NoDupCountOne(s[1..], x);
    }
  }

  /** Adding one more element at the end of the input either leaves the
      distinct list as it was (already seen) or appends that element. */
  lemma {:induction false} DistinctIntoSnoc<T(!new)>(acc: seq<T>, s: seq<T>, x: T)
    requires NoDup(acc)
    ensures DistinctInto(acc, s + [x])
            == (var r := DistinctInto(acc, s); if x in r then r else r + [x])
    decreases |s|
  {
    if |s| == 0 {
      assert s + [x] == [x];
      assert ([x])[1..] == [];
    } else {
      assert (s + [x])[0] == s[0];
      assert (s + [x])[1..] == s[1..] + [x];
      if s[0] in acc {
        DistinctIntoSnoc(acc, s[1..], x);
      } else {
        DistinctIntoSnoc(acc + [s[0]], s[1..], x);
      }
    }
  }

  lemma DistinctSnoc<T(!new)>(s: seq<T>, x: T)
    ensures Distinct(s + [x]) == (if x in Distinct(s) then Distinct(s) else Distinct(s) + [x])
  {
    DistinctIntoSnoc([], s, x);
  }

  /** Elements already seen add nothing. */
  lemma {:induction false} DistinctIntoSeen<T(!new)>(acc: seq<T>, t: seq<T>)
    requires NoDup(acc) && forall i :: 0 <= i < |t| ==> t[i] in acc
    ensures DistinctInto(acc, t) == acc
    decreases |t|
  {
    if |t| > 0 {
      DistinctIntoSeen(acc, t[1..]);
    }
  }

  /** A list holding one value over and over de-duplicates to that value alone. */
  lemma DistinctConstant<T(!new)>(s: seq<T>, x: T)
    requires |s| > 0 && forall i :: 0 <= i < |s| ==> s[i] == x
    ensures Distinct(s) == [x]
  {
    assert NoDup([x]);
    assert s[0] !in [];
    assert [] + [s[0]] == [x];
    assert DistinctInto([], s) == DistinctInto([x], s[1..]);
    DistinctIntoSeen([x], s[1..]);
  }
}
