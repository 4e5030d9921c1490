/** Strings: white space and order. Lists: duplicates and order. */
module Text {
  // The characters Unicode calls white space.
  predicate Space(c: char) {
    || c == ' ' || '\t' <= c <= '\r' || c == '\U{85}' || c == '\U{A0}' || c == '\U{1680}'
    || '\U{2000}' <= c <= '\U{200A}' || '\U{2028}' <= c <= '\U{2029}' || c == '\U{202F}' || c == '\U{205F}' || c == '\U{3000}'
  }

  function TrimSpace(s: string): string
    decreases |s|
  {
    if s != "" && Space(s[0]) then TrimSpace(s[1..])
    else if s != "" && Space(s[|s| - 1]) then TrimSpace(s[..|s| - 1])
    else s
  }

  // Nothing but white space goes, and none is left at either end.
  lemma {:induction false} TrimIsExact(s: string) returns (from: nat, to: nat)
    ensures from <= to <= |s| && TrimSpace(s) == s[from..to]
    ensures forall i :: 0 <= i < |s| && !(from <= i < to) ==> Space(s[i])
    ensures from < to ==> !Space(s[from]) && !Space(s[to - 1])
    decreases |s|
  {
    if s != "" && Space(s[0]) {
      from, to := TrimIsExact(s[1..]);
      assert s[1..][from..to] == s[from + 1..to + 1];
      forall i | 0 <= i < |s| && !(from + 1 <= i < to + 1) ensures Space(s[i]) { if i > 0 { assert s[1..][i - 1] == s[i]; } }
      from, to := from + 1, to + 1;
    } else if s != "" && Space(s[|s| - 1]) {
      from, to := TrimIsExact(s[..|s| - 1]);
      assert s[..|s| - 1][from..to] == s[from..to];
      forall i | 0 <= i < |s| && !(from <= i < to) ensures Space(s[i]) { if i < |s| - 1 { assert s[..|s| - 1][i] == s[i]; } }
    } else {
      from, to := 0, |s|;
      assert s[0..|s|] == s;
    }
  }

  lemma NothingToTrim(s: string)
    requires s != "" && !Space(s[0]) && !Space(s[|s| - 1])
    ensures TrimSpace(s) == s
  {
  }

  // Lexicographic order.
  predicate Before(a: string, b: string) {
    b != "" && (a == "" || a[0] < b[0] || (a[0] == b[0] && Before(a[1..], b[1..])))
  }

  lemma {:induction false} BeforeIsTotal(a: string, b: string)
    ensures a != b ==> Before(a, b) || Before(b, a)
    ensures !(Before(a, b) && Before(b, a)) && !Before(a, a)
  {
    if a != "" {
      BeforeIsTotal(a[1..], a[1..]);
      if b != "" && a[0] == b[0] {
        BeforeIsTotal(a[1..], b[1..]);
        assert a == [a[0]] + a[1..] && b == [b[0]] + b[1..];
      }
    }
  }

  lemma {:induction false} BeforeIsTransitive(a: string, b: string, c: string)
    requires Before(a, b) && Before(b, c)
    ensures Before(a, c)
  {
    if a != "" && a[0] == b[0] == c[0] { BeforeIsTransitive(a[1..], b[1..], c[1..]); }
  }

  // The first place where two strings differ decides.
  lemma {:induction false} BeforeIsLexicographic(a: string, b: string)
    ensures Before(a, b) <==>
              exists k :: 0 <= k <= |a| && k < |b| && a[..k] == b[..k] && (k == |a| || a[k] < b[k])
  {
    if a != "" && b != "" && a[0] == b[0] {
      BeforeIsLexicographic(a[1..], b[1..]);
      if Before(a, b) {
        var k :| 0 <= k <= |a[1..]| && k < |b[1..]| && a[1..][..k] == b[1..][..k] && (k == |a[1..]| || a[1..][k] < b[1..][k]);
        assert a[..k + 1] == [a[0]] + a[1..][..k] && b[..k + 1] == [b[0]] + b[1..][..k];
      }
      if k :| 0 <= k <= |a| && k < |b| && a[..k] == b[..k] && (k == |a| || a[k] < b[k]) {
        assert k > 0 && a[1..][..k - 1] == a[..k][1..] && b[1..][..k - 1] == b[..k][1..];
        assert k - 1 == |a[1..]| || a[1..][k - 1] < b[1..][k - 1];
      }
    } else if Before(a, b) {
      assert a[..0] == b[..0];
    } else {
      forall k | 0 < k <= |a| && k < |b| ensures a[..k] != b[..k] { assert a[..k][0] == a[0] && b[..k][0] == b[0]; }
    }
  }

  ghost predicate Distinct<T>(s: seq<T>) {
    forall i, j :: 0 <= i < j < |s| ==> s[i] != s[j]
  }

  lemma DistinctGrows<T>(s: seq<T>, x: T)
    requires Distinct(s)
    ensures Distinct(s + [x]) <==> x !in s
  {
    if x in s {
      var i :| 0 <= i < |s| && s[i] == x;
      assert (s + [x])[i] == (s + [x])[|s|];
    }
  }

  lemma DistinctPrefix<T>(s: seq<T>, prefix: seq<T>)
    requires |prefix| <= |s| && forall i :: 0 <= i < |prefix| ==> prefix[i] == s[i]
    ensures Distinct(s) ==> Distinct(prefix)
  {
  }

  // Being without duplicates does not depend on the order.
  lemma {:induction false} DistinctByCount<T>(s: seq<T>)
    ensures Distinct(s) <==> forall x :: x in s ==> multiset(s)[x] == 1
  {
    if s != [] {
      var rest := s[1..];
      DistinctByCount(rest);
      assert s == [s[0]] + rest;
      assert multiset(s) == multiset{s[0]} + multiset(rest);
      assert forall k :: 0 <= k < |rest| ==> rest[k] == s[k + 1];
      if Distinct(s) { assert Distinct(rest) && s[0] !in rest; }
      if forall x :: x in s ==> multiset(s)[x] == 1 {
        assert multiset(s)[s[0]] == 1;
        assert s[0] !in rest;
        forall x | x in rest ensures multiset(rest)[x] == 1 { assert x in s; }
        forall i, j | 0 <= i < j < |s| ensures s[i] != s[j] { if i > 0 { assert s[i] == rest[i - 1]; } }
      }
    }
  }

  lemma Regroup<T>(a: seq<T>, b: seq<T>, c: seq<T>)
    ensures a + b + c == a + (b + c)
  {
  }

  function Map<T, U>(f: T -> U, s: seq<T>): seq<U> {
    seq(|s|, i requires 0 <= i < |s| => f(s[i]))
  }

  function Without<T>(s: seq<T>, k: nat): seq<T>
    requires k < |s|
  {
    s[..k] + s[k + 1..]
  }

  lemma WithoutCounts<T>(s: seq<T>, k: nat)
    requires k < |s|
    ensures multiset(s) == multiset{s[k]} + multiset(Without(s, k))
    ensures multiset(Without(s, k)) == multiset(s) - multiset{s[k]}
  {
    assert s == s[..k] + [s[k]] + s[k + 1..];
  }

  lemma TailCounts<T>(a: seq<T>, b: seq<T>)
    requires a != [] && b != [] && a[0] == b[0] && multiset(a) == multiset(b)
    ensures multiset(a[1..]) == multiset(b[1..])
  {
    assert a == [a[0]] + a[1..] && b == [b[0]] + b[1..];
    assert multiset(a[1..]) == multiset(a) - multiset{a[0]};
    assert multiset(b[1..]) == multiset(b) - multiset{b[0]};
  }

  lemma MapWithout<T, U>(f: T -> U, s: seq<T>, k: nat)
    requires k < |s|
    ensures multiset(Map(f, s)) == multiset{f(s[k])} + multiset(Map(f, Without(s, k)))
  {
    WithoutCounts(Map(f, s), k);
    assert Map(f, Without(s, k)) == Without(Map(f, s), k);
  }

  // Mapping a reordered list gives a reordered list.
  lemma {:induction false} MapPermutes<T, U>(f: T -> U, a: seq<T>, b: seq<T>)
    requires multiset(a) == multiset(b)
    ensures multiset(Map(f, a)) == multiset(Map(f, b))
  {
    SameElements(a, b);
    if a != [] {
      assert a[0] in b;
      var k :| 0 <= k < |b| && b[k] == a[0];
      WithoutCounts(a, 0);
      WithoutCounts(b, k);
      MapPermutes(f, Without(a, 0), Without(b, k));
      MapWithout(f, a, 0);
      MapWithout(f, b, k);
    }
  }

  lemma SameElements<T>(a: seq<T>, b: seq<T>)
    requires multiset(a) == multiset(b)
    ensures |a| == |b| && forall x :: x in a <==> x in b
  {
    assert |a| == |multiset(a)| && |b| == |multiset(b)|;
    assert forall x :: (x in a <==> x in multiset(a)) && (x in b <==> x in multiset(b));
  }

  lemma DistinctPermutes<T>(a: seq<T>, b: seq<T>)
    requires multiset(a) == multiset(b)
    ensures Distinct(a) <==> Distinct(b)
  {
    DistinctByCount(a);
    DistinctByCount(b);
    SameElements(a, b);
  }

  function FlatMap<T, U>(f: T -> seq<U>, s: seq<T>): seq<U> {
    if s == [] then [] else FlatMap(f, s[..|s| - 1]) + f(s[|s| - 1])
  }

  lemma {:induction false} FlatMapAppends<T, U>(f: T -> seq<U>, a: seq<T>, b: seq<T>)
    ensures FlatMap(f, a + b) == FlatMap(f, a) + FlatMap(f, b)
  {
    if b == [] {
      assert a + b == a;
    } else {
      assert (a + b)[..|a + b| - 1] == a + b[..|b| - 1];
      FlatMapAppends(f, a, b[..|b| - 1]);
    }
  }

  lemma {:induction false} FlatMapHolds<T, U>(f: T -> seq<U>, s: seq<T>)
    ensures forall u :: u in FlatMap(f, s) <==> exists x :: x in s && u in f(x)
  {
    if s != [] {
      var k := |s| - 1;
      FlatMapHolds(f, s[..k]);
      assert s == s[..k] + [s[k]];
      assert forall x :: x in s <==> x in s[..k] || x == s[k];
    }
  }

  // What is kept of a list, and made of it, in its order: `at` says where each came from.
  ghost predicate Kept<T, U>(s: seq<T>, keep: T -> bool, make: T -> U, r: seq<U>, at: seq<nat>) {
    && |at| == |r| && (forall m, n :: 0 <= m < n < |at| ==> at[m] < at[n])
    && (forall n :: 0 <= n < |at| ==> at[n] < |s| && keep(s[at[n]]) && r[n] == make(s[at[n]]))
    && (forall i :: 0 <= i < |s| && keep(s[i]) ==> i in at)
  }

  lemma {:induction false} FlatMapKeeps<T, U>(f: T -> seq<U>, s: seq<T>, keep: T -> bool, make: T -> U) returns (at: seq<nat>)
    requires forall t :: f(t) == if keep(t) then [make(t)] else []
    ensures Kept(s, keep, make, FlatMap(f, s), at)
  {
    if s == [] {
      at := [];
    } else {
      var k := |s| - 1;
      at := FlatMapKeeps(f, s[..k], keep, make);
      KeepsMore(s, keep, make, FlatMap(f, s[..k]), at);
      if keep(s[k]) { at := at + [k]; }
    }
  }

  lemma KeepsMore<T, U>(s: seq<T>, keep: T -> bool, make: T -> U, r: seq<U>, at: seq<nat>)
    requires s != [] && Kept(s[..|s| - 1], keep, make, r, at)
    ensures if keep(s[|s| - 1]) then Kept(s, keep, make, r + [make(s[|s| - 1])], at + [|s| - 1]) else Kept(s, keep, make, r, at)
  {
    var k := |s| - 1;
    assert forall i :: 0 <= i < k ==> s[..k][i] == s[i];
    if keep(s[k]) {
      var more := at + [k];
      forall i | 0 <= i < |s| && keep(s[i]) ensures i in more {
        if i < k { assert keep(s[..k][i]) && i in at; } else { assert more[|at|] == k; }
      }
    } else {
      forall i | 0 <= i < |s| && keep(s[i]) ensures i in at { assert keep(s[..k][i]); }
    }
  }

  lemma FlatMapCons<T, U>(f: T -> seq<U>, x: T, rest: seq<T>)
    ensures FlatMap(f, [x] + rest) == f(x) + FlatMap(f, rest)
  {
    FlatMapAppends(f, [x], rest);
    assert [x][..0] == [];
  }

  lemma TakenFromMiddle<T>(a: seq<T>, b: seq<T>, c: seq<T>)
    ensures multiset(a + (b + c)) == multiset(b) + multiset(a + c)
  {
  }

  lemma FlatMapMiddle<T, U>(f: T -> seq<U>, a: seq<T>, x: T, b: seq<T>)
    ensures multiset(FlatMap(f, a + ([x] + b))) == multiset(f(x)) + multiset(FlatMap(f, a + b))
  {
    FlatMapAppends(f, a, b);
    FlatMapAppends(f, a, [x] + b);
    FlatMapCons(f, x, b);
    TakenFromMiddle(FlatMap(f, a), f(x), FlatMap(f, b));
  }

  lemma SplitAt<T>(s: seq<T>, k: nat)
    requires k < |s|
    ensures s == s[..k] + ([s[k]] + s[k + 1..])
  {
  }

  // Concatenating over a reordered list reorders the result.
  lemma {:induction false} FlatMapPermutes<T, U>(f: T -> seq<U>, a: seq<T>, b: seq<T>)
    requires multiset(a) == multiset(b)
    ensures multiset(FlatMap(f, a)) == multiset(FlatMap(f, b))
  {
    SameElements(a, b);
    if a != [] {
      assert a[0] in b;
      var k :| 0 <= k < |b| && b[k] == a[0];
      WithoutCounts(a, 0);
      WithoutCounts(b, k);
      FlatMapPermutes(f, Without(a, 0), Without(b, k));
      SplitAt(a, 0);
      SplitAt(b, k);
      FlatMapMiddle(f, a[..0], a[0], a[1..]);
      FlatMapMiddle(f, b[..k], b[k], b[k + 1..]);
    }
  }
}
