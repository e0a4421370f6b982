/** Python's stable `sorted(xs, key=...)`. */
module Sorting {
  import opened Common

  /** Insert `x` behind every element it does not have to precede. */
  function Insert<T>(leq: (T, T) -> bool, s: seq<T>, x: T): seq<T> {
    if s == [] then [x]
    else
      var n := |s| - 1;
      if leq(s[n], x) then s + [x] else Insert(leq, s[..n], x) + [s[n]]
  }

  function Sort<T>(leq: (T, T) -> bool, s: seq<T>): seq<T> {
    if s == [] then [] else Insert(leq, Sort(leq, s[..|s| - 1]), s[|s| - 1])
  }

  ghost predicate Sorted<T>(leq: (T, T) -> bool, s: seq<T>) {
    forall i, j :: 0 <= i < j < |s| ==> leq(s[i], s[j])
  }

  ghost predicate TotalPreorder<T(!new)>(leq: (T, T) -> bool) {
    && (forall x, y :: leq(x, y) || leq(y, x))
    && (forall x, y, z :: leq(x, y) && leq(y, z) ==> leq(x, z))
  }

  lemma {:induction false} InsertPermutes<T>(leq: (T, T) -> bool, s: seq<T>, x: T)
    ensures multiset(Insert(leq, s, x)) == multiset(s) + multiset{x}
  {
    if s != [] {
      var n := |s| - 1;
      assert s == s[..n] + [s[n]];
      if !leq(s[n], x) {
        InsertPermutes(leq, s[..n], x);
      }
    }
  }

  lemma {:induction false} SortPermutes<T>(leq: (T, T) -> bool, s: seq<T>)
    ensures multiset(Sort(leq, s)) == multiset(s) && |Sort(leq, s)| == |s|
  {
    if s != [] {
      var n := |s| - 1;
      assert s == s[..n] + [s[n]];
      SortPermutes(leq, s[..n]);
      InsertPermutes(leq, Sort(leq, s[..n]), s[n]);
    }
    assert |Sort(leq, s)| == |multiset(Sort(leq, s))| == |multiset(s)|;
  }

  lemma {:induction false} InsertSorts<T(!new)>(leq: (T, T) -> bool, s: seq<T>, x: T)
    requires TotalPreorder(leq) && Sorted(leq, s)
    ensures Sorted(leq, Insert(leq, s, x))
  {
    if s != [] {
      var n := |s| - 1;
      if leq(s[n], x) {
        forall i | 0 <= i < |s| ensures leq(s[i], x) {
          assert i < n ==> leq(s[i], s[n]);
        }
      } else {
        InsertSorts(leq, s[..n], x);
        var r := Insert(leq, s[..n], x);
        forall i | 0 <= i < |r| ensures leq(r[i], s[n]) {
          InsertPermutes(leq, s[..n], x);
          assert r[i] in multiset(r);
          assert r[i] in s[..n] || r[i] == x;
        }
      }
    }
  }

  lemma {:induction false} SortSorts<T(!new)>(leq: (T, T) -> bool, s: seq<T>)
    requires TotalPreorder(leq)
    ensures Sorted(leq, Sort(leq, s))
  {
    if s != [] {
      SortSorts(leq, s[..|s| - 1]);
      InsertSorts(leq, Sort(leq, s[..|s| - 1]), s[|s| - 1]);
    }
  }

  lemma LastIsGreatest<T>(leq: (T, T) -> bool, s: seq<T>, x: T)
    requires Sorted(leq, s) && x in s && leq(x, x)
    ensures leq(x, s[|s| - 1])
  {
    var i :| 0 <= i < |s| && s[i] == x;
    assert i < |s| - 1 ==> leq(s[i], s[|s| - 1]);
  }

  /** The order is reflexive on the elements of `s` and has no ties between different ones. */
  ghost predicate TieFree<T(!new)>(leq: (T, T) -> bool, s: seq<T>) {
    && (forall x :: x in s ==> leq(x, x))
    && (forall x, y :: x in s && y in s && leq(x, y) && leq(y, x) ==> x == y)
  }

  lemma SameLast<T(!new)>(leq: (T, T) -> bool, a: seq<T>, b: seq<T>)
    requires TieFree(leq, a) && Sorted(leq, a) && Sorted(leq, b) && multiset(a) == multiset(b) && a != [] && b != []
    ensures a[|a| - 1] == b[|b| - 1]
  {
    var x, y := a[|a| - 1], b[|b| - 1];
    assert x in multiset(b) && y in multiset(a);
    LastIsGreatest(leq, b, x);
    LastIsGreatest(leq, a, y);
  }

  lemma DropLast<T>(a: seq<T>, b: seq<T>)
    requires multiset(a) == multiset(b) && |a| == |b| > 0 && a[|a| - 1] == b[|b| - 1]
    ensures multiset(a[..|a| - 1]) == multiset(b[..|b| - 1])
  {
    var n := |a| - 1;
    assert a == a[..n] + [a[n]] && b == b[..n] + [b[n]];
    assert multiset(a[..n]) == multiset(a) - multiset{a[n]} == multiset(b[..n]);
  }

  lemma InitKeeps<T(!new)>(leq: (T, T) -> bool, s: seq<T>)
    requires Sorted(leq, s) && s != []
    ensures Sorted(leq, s[..|s| - 1])
    ensures TieFree(leq, s) ==> TieFree(leq, s[..|s| - 1])
  {
    assert forall x :: x in s[..|s| - 1] ==> x in s;
  }

  /** Without ties between different elements the sorted order is unique. */
  lemma {:induction false} SortedUnique<T(!new)>(leq: (T, T) -> bool, a: seq<T>, b: seq<T>)
    requires TieFree(leq, a) && Sorted(leq, a) && Sorted(leq, b) && multiset(a) == multiset(b)
    ensures a == b
    decreases |a|
  {
    assert |a| == |multiset(a)| == |multiset(b)| == |b|;
    if a != [] {
      var n := |a| - 1;
      SameLast(leq, a, b);
      assert a[..n] == b[..n] by {
        DropLast(a, b);
        InitKeeps(leq, a);
        InitKeeps(leq, b);
        SortedUnique(leq, a[..n], b[..n]);
      }
      assert a == a[..n] + [a[n]] && b == b[..n] + [b[n]];
    }
  }

  // ---------------------------------------------------------------- stability

  predicate Ties<T>(leq: (T, T) -> bool, x: T, y: T) {
    leq(x, y) && leq(y, x)
  }

  function TieOf<T>(leq: (T, T) -> bool, x: T): T -> seq<T> {
    y => if Ties(leq, x, y) then [y] else []
  }

  /** The elements that tie with `x`, in order. */
  function Tied<T>(leq: (T, T) -> bool, x: T, s: seq<T>): seq<T> {
    FlatMap(TieOf(leq, x), s)
  }

  lemma TiedLast<T>(leq: (T, T) -> bool, x: T, s: seq<T>, y: T)
    ensures Tied(leq, x, s + [y]) == Tied(leq, x, s) + TieOf(leq, x)(y)
  {
    assert (s + [y])[..|s|] == s;
  }

  lemma SwapEmpty<T>(a: seq<T>, p: seq<T>, q: seq<T>)
    requires p == [] || q == []
    ensures (a + p) + q == (a + q) + p
  {
  }

  lemma {:induction false} InsertStable<T(!new)>(leq: (T, T) -> bool, s: seq<T>, z: T, x: T)
    requires TotalPreorder(leq)
    ensures Tied(leq, x, Insert(leq, s, z)) == Tied(leq, x, s) + TieOf(leq, x)(z)
  {
    if s == [] || leq(s[|s| - 1], z) {
      TiedLast(leq, x, s, z);
      assert s == [] ==> s + [z] == [z];
    } else {
      var n := |s| - 1;
      var f := TieOf(leq, x);
      InsertStable(leq, s[..n], z, x);
      TiedLast(leq, x, Insert(leq, s[..n], z), s[n]);
      assert Tied(leq, x, s) == Tied(leq, x, s[..n]) + f(s[n]);
      SwapEmpty(Tied(leq, x, s[..n]), f(z), f(s[n]));
    }
  }

  /** Sorting keeps the order of elements that tie. */
  lemma {:induction false} SortStable<T(!new)>(leq: (T, T) -> bool, s: seq<T>, x: T)
    requires TotalPreorder(leq)
    ensures Tied(leq, x, Sort(leq, s)) == Tied(leq, x, s)
  {
    if s != [] {
      var n := |s| - 1;
      SortStable(leq, s[..n], x);
      InsertStable(leq, Sort(leq, s[..n]), s[n], x);
    }
  }

  /** Equal elements occur equally often, and different ones that tie in the same order. */
  ghost predicate SameTies<T(!new)>(leq: (T, T) -> bool, a: seq<T>, b: seq<T>) {
    forall x: T :: Tied(leq, x, a) == Tied(leq, x, b)
  }

  lemma {:induction false} TiedMembers<T>(leq: (T, T) -> bool, x: T, s: seq<T>, y: T)
    ensures y in Tied(leq, x, s) <==> y in s && Ties(leq, x, y)
  {
    if s != [] {
      var n := |s| - 1;
      TiedMembers(leq, x, s[..n], y);
      assert s == s[..n] + [s[n]];
    }
  }

  lemma TiedEnd<T>(leq: (T, T) -> bool, x: T, s: seq<T>)
    requires s != [] && Ties(leq, x, s[|s| - 1])
    ensures Tied(leq, x, s) != [] && Tied(leq, x, s)[|Tied(leq, x, s)| - 1] == s[|s| - 1]
  {
  }

  /** Sorted lists with the same ties end alike. */
  lemma SameTiesEnd<T(!new)>(leq: (T, T) -> bool, a: seq<T>, b: seq<T>)
    requires TotalPreorder(leq) && Sorted(leq, a) && Sorted(leq, b) && SameTies(leq, a, b) && a != []
    ensures b != [] && a[|a| - 1] == b[|b| - 1]
  {
    var x := a[|a| - 1];
    TiedMembers(leq, x, a, x);
    TiedMembers(leq, x, b, x);
    LastIsGreatest(leq, b, x);
    var y := b[|b| - 1];
    TiedMembers(leq, y, b, y);
    TiedMembers(leq, y, a, y);
    LastIsGreatest(leq, a, y);
    TiedEnd(leq, x, a);
    TiedEnd(leq, x, b);
  }

  lemma CancelEnd<T>(a: seq<T>, b: seq<T>, c: seq<T>)
    requires a + c == b + c
    ensures a == b
  {
    assert |a| == |b| && a == (a + c)[..|a|] && b == (b + c)[..|b|];
  }

  lemma SameTiesInit<T(!new)>(leq: (T, T) -> bool, a: seq<T>, b: seq<T>)
    requires SameTies(leq, a, b) && a != [] && b != [] && a[|a| - 1] == b[|b| - 1]
    ensures SameTies(leq, a[..|a| - 1], b[..|b| - 1])
  {
    var u, v := a[..|a| - 1], b[..|b| - 1];
    forall x: T ensures Tied(leq, x, u) == Tied(leq, x, v) {
      assert Tied(leq, x, a) == Tied(leq, x, b);
      CancelEnd(Tied(leq, x, u), Tied(leq, x, v), TieOf(leq, x)(a[|a| - 1]));
    }
  }

  lemma {:induction false} SortedSameTies<T(!new)>(leq: (T, T) -> bool, a: seq<T>, b: seq<T>)
    requires TotalPreorder(leq) && Sorted(leq, a) && Sorted(leq, b) && SameTies(leq, a, b)
    ensures a == b
    decreases |a|
  {
    if a == [] {
      if b != [] {
        TiedMembers(leq, b[0], a, b[0]);
        TiedMembers(leq, b[0], b, b[0]);
      }
    } else {
      SameTiesEnd(leq, a, b);
      SameTiesInit(leq, a, b);
      SortedSameTies(leq, a[..|a| - 1], b[..|b| - 1]);
      assert a == a[..|a| - 1] + [a[|a| - 1]] && b == b[..|b| - 1] + [b[|b| - 1]];
    }
  }

  /** Two lists are sorted into the same list exactly when they have the same ties. */
  lemma SortSameIff<T(!new)>(leq: (T, T) -> bool, a: seq<T>, b: seq<T>)
    requires TotalPreorder(leq)
    ensures Sort(leq, a) == Sort(leq, b) <==> SameTies(leq, a, b)
  {
    var u, v := Sort(leq, a), Sort(leq, b);
    forall x: T ensures Tied(leq, x, u) == Tied(leq, x, a) {
      SortStable(leq, a, x);
    }
    forall x: T ensures Tied(leq, x, v) == Tied(leq, x, b) {
      SortStable(leq, b, x);
    }
    if SameTies(leq, a, b) {
      SortSorts(leq, a);
      SortSorts(leq, b);
      SortedSameTies(leq, u, v);
    }
  }

  lemma TiedPair<T>(leq: (T, T) -> bool, x: T, y: T, rest: seq<T>)
    requires Ties(leq, x, x) && Ties(leq, x, y)
    ensures Tied(leq, x, [x, y] + rest) == [x, y] + Tied(leq, x, rest)
    ensures Tied(leq, x, [y, x] + rest) == [y, x] + Tied(leq, x, rest)
  {
    FlatMapConcat(TieOf(leq, x), [x, y], rest);
    FlatMapConcat(TieOf(leq, x), [y, x], rest);
    TiedLast(leq, x, [x], y);
    TiedLast(leq, x, [y], x);
    TiedLast(leq, x, [], x);
    TiedLast(leq, x, [], y);
    assert [x] + [y] == [x, y] && [y] + [x] == [y, x];
    assert [] + [x] == [x] && [] + [y] == [y];
  }

  /** Two different elements that tie come out in the order they went in. */
  lemma TiesKeepOrder<T(!new)>(leq: (T, T) -> bool, x: T, y: T, rest: seq<T>)
    requires TotalPreorder(leq) && x != y && Ties(leq, x, y)
    ensures Sort(leq, [x, y] + rest) != Sort(leq, [y, x] + rest)
  {
    SortStable(leq, [x, y] + rest, x);
    SortStable(leq, [y, x] + rest, x);
    TiedPair(leq, x, y, rest);
    assert ([x, y] + Tied(leq, x, rest))[0] == x && ([y, x] + Tied(leq, x, rest))[0] == y;
  }

  lemma WithoutOne<T>(s: seq<T>, i: nat)
    requires i < |s|
    ensures multiset(s) == multiset(s[..i] + s[i + 1..]) + multiset{s[i]}
  {
    assert s == s[..i] + [s[i]] + s[i + 1..];
  }

  /** What is left of a list without its last element is left of a reordered one without some element. */
  lemma Removed<T>(a: seq<T>, b: seq<T>) returns (j: nat)
    requires multiset(a) == multiset(b) && a != []
    ensures j < |b| && b[j] == a[|a| - 1] && multiset(a[..|a| - 1]) == multiset(b[..j] + b[j + 1..])
  {
    var n := |a| - 1;
    assert a[n] in multiset(b);
    j :| 0 <= j < |b| && b[j] == a[n];
    WithoutOne(b, j);
    assert a == a[..n] + [a[n]];
    assert multiset(a[..n]) == multiset(a) - multiset{a[n]};
  }

  lemma PairInFront<T>(x: T, y: T, rest: seq<T>)
    ensures multiset([x, y] + rest) == multiset(rest) + multiset{y} + multiset{x}
  {
    assert multiset([x, y]) == multiset{y} + multiset{x};
  }

  /** Two occurrences of different elements can be brought to the front. */
  lemma BringToFront<T>(s: seq<T>, x: T, y: T) returns (rest: seq<T>)
    requires x in s && y in s && x != y
    ensures multiset([x, y] + rest) == multiset(s) == multiset([y, x] + rest)
  {
    var i :| 0 <= i < |s| && s[i] == x;
    var t := s[..i] + s[i + 1..];
    WithoutOne(s, i);
    assert y in multiset(s) && y in multiset(t);
    var j :| 0 <= j < |t| && t[j] == y;
    rest := t[..j] + t[j + 1..];
    WithoutOne(t, j);
    PairInFront(x, y, rest);
    PairInFront(y, x, rest);
  }
}
