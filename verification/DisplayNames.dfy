/** Display names: repeated names get the least free number, without rescanning. */
module DisplayNames {
  import opened Text

  function Decimal(n: nat): (s: string)
    ensures s != ""
  {
    var digit := [('0' as int + n % 10) as char];
    if n < 10 then digit else Decimal(n / 10) + digit
  }

  lemma {:induction false} DecimalIsInjective(a: nat, b: nat)
    requires Decimal(a) == Decimal(b)
    ensures a == b
  {
    var s, t := Decimal(a), Decimal(b);
    assert s[|s| - 1] == t[|t| - 1];
    if a >= 10 && b >= 10 {
      assert s[..|s| - 1] == Decimal(a / 10) && t[..|t| - 1] == Decimal(b / 10);
      DecimalIsInjective(a / 10, b / 10);
    }
  }

  // The number a string of digits stands for.
  function Value(s: string): int {
    if s == "" then 0 else Value(s[..|s| - 1]) * 10 + (s[|s| - 1] as int - '0' as int)
  }

  lemma {:induction false} DecimalReadsBack(n: nat)
    ensures Value(Decimal(n)) == n && forall c :: c in Decimal(n) ==> '0' <= c <= '9'
    ensures Decimal(n)[0] == '0' ==> n == 0
  {
    var s := Decimal(n);
    assert s[..|s| - 1] == if n < 10 then "" else Decimal(n / 10);
    if n >= 10 { DecimalReadsBack(n / 10); }
  }

  // A numbered name is the name, a dot in spaces, and the number.
  lemma NumberedReadsBack(base: string, n: nat)
    ensures var name, k := Numbered(base, n), |base|;
            |name| > k + 3 && name[..k] == base && name[k..k + 3] == " · " && Value(name[k + 3..]) == n
            && forall i :: k + 3 <= i < |name| ==> '0' <= name[i] <= '9'
  {
    var name, k := Numbered(base, n), |base|;
    assert name[k + 3..] == Decimal(n);
    DecimalReadsBack(n);
    forall i | k + 3 <= i < |name| ensures '0' <= name[i] <= '9' {
      assert name[i] == Decimal(n)[i - k - 3] && Decimal(n)[i - k - 3] in Decimal(n);
    }
  }

  function Numbered(base: string, n: nat): (name: string)
    ensures name != base
  {
    base + " · " + Decimal(n)
  }

  lemma NumbersDiffer(base: string, a: nat, b: nat)
    requires Numbered(base, a) == Numbered(base, b)
    ensures a == b
  {
    var k := |base + " · "|;
    assert Numbered(base, a)[k..] == Decimal(a) && Numbered(base, b)[k..] == Decimal(b);
    DecimalIsInjective(a, b);
  }

  // A name kept as it was is numbered from 2 on; one that was itself generated, from 0.
  ghost function Start(before: seq<string>, after: seq<string>, name: string): nat
    requires |before| == |after|
  {
    if exists j :: 0 <= j < |before| && before[j] == after[j] == name then 2 else 0
  }

  // n is the least free number for a name, given the names settled so far.
  ghost predicate Least(taken: seq<string>, name: string, from: nat, n: nat) {
    from <= n && Numbered(name, n) !in taken && forall m: nat :: from <= m < n ==> Numbered(name, m) in taken
  }

  ghost predicate NamedAt(before: seq<string>, after: seq<string>, i: nat)
    requires |before| == |after| && i < |before|
  {
    if before[i] !in after[..i] then after[i] == before[i]
    else exists n: nat ::
      after[i] == Numbered(before[i], n) && Least(after[..i], before[i], Start(before[..i], after[..i], before[i]), n)
  }

  // What the numbering promises, name by name.
  ghost predicate Disambiguated(before: seq<string>, after: seq<string>) {
    |before| == |after| && forall i :: 0 <= i < |before| ==> NamedAt(before, after, i)
  }

  lemma NamesAreDistinct(before: seq<string>, after: seq<string>)
    requires Disambiguated(before, after)
    ensures Distinct(after)
  {
    forall i, j | 0 <= i < j < |after| ensures after[i] != after[j] {
      assert NamedAt(before, after, j);
      assert after[i] in after[..j];
    }
  }

  // The promise leaves one result only.
  lemma {:induction false} ResultIsUnique(before: seq<string>, a: seq<string>, b: seq<string>)
    requires Disambiguated(before, a) && Disambiguated(before, b)
    ensures a == b
  {
    if before != [] {
      var k := |before| - 1;
      PrefixDisambiguated(before, a, k);
      PrefixDisambiguated(before, b, k);
      ResultIsUnique(before[..k], a[..k], b[..k]);
      assert NamedAt(before, a, k) && NamedAt(before, b, k);
      if before[k] in a[..k] {
        var from := Start(before[..k], a[..k], before[k]);
        var n: nat :| a[k] == Numbered(before[k], n) && Least(a[..k], before[k], from, n);
        var m: nat :| b[k] == Numbered(before[k], m) && Least(a[..k], before[k], from, m);
        assert n == m;
      }
      assert a == a[..k] + [a[k]] && b == b[..k] + [b[k]];
    }
  }

  lemma PrefixDisambiguated(before: seq<string>, after: seq<string>, k: nat)
    requires Disambiguated(before, after) && k <= |before|
    ensures Disambiguated(before[..k], after[..k])
  {
    forall i | 0 <= i < k ensures NamedAt(before[..k], after[..k], i) {
      assert NamedAt(before, after, i);
      assert before[..k][..i] == before[..i] && after[..k][..i] == after[..i];
    }
  }

  lemma OneMore(before: seq<string>, after: seq<string>, base: string, name: string)
    requires Disambiguated(before, after) && NamedAt(before + [base], after + [name], |before|)
    ensures Disambiguated(before + [base], after + [name])
  {
    var b, a := before + [base], after + [name];
    forall i | 0 <= i < |b| ensures NamedAt(b, a, i) {
      if i < |before| {
        assert NamedAt(before, after, i);
        assert b[..i] == before[..i] && a[..i] == after[..i];
      }
    }
  }

  function Counter(next: map<string, nat>, base: string): nat {
    if base in next then next[base] else 0
  }

  // The remembered counter skips only numbers already taken.
  ghost predicate Remembered(before: seq<string>, after: seq<string>, next: map<string, nat>)
    requires |before| == |after|
  {
    forall base: string :: CountedFrom(after, base, Start(before, after, base), Counter(next, base))
  }

  ghost predicate CountedFrom(taken: seq<string>, base: string, from: nat, counter: nat) {
    from <= counter && forall m: nat :: from <= m < counter ==> Numbered(base, m) in taken
  }

  lemma StartGrows(before: seq<string>, after: seq<string>, base: string, name: string, x: string)
    requires |before| == |after|
    ensures Start(before + [base], after + [name], x) == if base == name == x then 2 else Start(before, after, x)
  {
    var b, a := before + [base], after + [name];
    if j :| 0 <= j < |before| && before[j] == after[j] == x { assert b[j] == a[j] == x; }
    if base == name == x { assert b[|before|] == a[|before|] == x; }
  }

  lemma KeepOne(before: seq<string>, after: seq<string>, next: map<string, nat>, base: string)
    requires Disambiguated(before, after) && Remembered(before, after, next) && base !in after
    ensures Disambiguated(before + [base], after + [base]) && Remembered(before + [base], after + [base], next[base := 2])
  {
    assert (after + [base])[..|before|] == after;
    OneMore(before, after, base, base);
    forall x: string ensures CountedFrom(after + [base], x, Start(before + [base], after + [base], x), Counter(next[base := 2], x)) {
      StartGrows(before, after, base, base, x);
      assert CountedFrom(after, x, Start(before, after, x), Counter(next, x));
    }
  }

  lemma NumberOne(before: seq<string>, after: seq<string>, next: map<string, nat>, base: string, n: nat)
    requires Disambiguated(before, after) && Remembered(before, after, next) && base in after
    requires Least(after, base, Counter(next, base), n)
    ensures var name := Numbered(base, n);
            && Disambiguated(before + [base], after + [name])
            && Remembered(before + [base], after + [name], next[base := n + 1])
  {
    var name := Numbered(base, n);
    assert (after + [name])[..|before|] == after && (before + [base])[..|before|] == before;
    assert CountedFrom(after, base, Start(before, after, base), Counter(next, base));
    assert Least(after, base, Start(before, after, base), n);
    OneMore(before, after, base, name);
    forall x: string ensures CountedFrom(after + [name], x, Start(before + [base], after + [name], x), Counter(next[base := n + 1], x)) {
      StartGrows(before, after, base, name, x);
      assert CountedFrom(after, x, Start(before, after, x), Counter(next, x));
    }
  }

  // The least number not taken: it exists, since fewer names are taken than there are numbers.
  method FirstFree(taken: set<string>, base: string, from: nat) returns (n: nat)
    ensures from <= n && Numbered(base, n) !in taken
    ensures forall m: nat :: from <= m < n ==> Numbered(base, m) in taken
  {
    n := from;
    ghost var tried: set<string> := {};
    while Numbered(base, n) in taken
      invariant from <= n && tried <= taken
      invariant forall m: nat :: from <= m < n ==> Numbered(base, m) in tried
      invariant forall name :: name in tried ==> exists m: nat :: from <= m < n && name == Numbered(base, m)
      decreases |taken - tried|
    {
      if Numbered(base, n) in tried {
        var m: nat :| from <= m < n && Numbered(base, n) == Numbered(base, m);
        NumbersDiffer(base, n, m);
        assert false;
      }
      tried := tried + {Numbered(base, n)};
      n := n + 1;
    }
  }

  method Disambiguate(names: array<string>)
    modifies names
    ensures Disambiguated(old(names[..]), names[..])
  {
    var used: set<string>, next: map<string, nat> := {}, map[];
    ghost var before := names[..];
    for i := 0 to names.Length
      invariant names[i..] == before[i..]
      invariant Disambiguated(before[..i], names[..i])
      invariant forall name :: name in used <==> name in names[..i]
      invariant Remembered(before[..i], names[..i], next)
    {
      ghost var after := names[..i];
      var base := names[i];
      assert base == before[i] && before[..i + 1] == before[..i] + [base];
      if base !in used {
        KeepOne(before[..i], after, next, base);
        used, next := used + {base}, next[base := 2];
      } else {
        var n := FirstFree(used, base, Counter(next, base));
        NumberOne(before[..i], after, next, base, n);
        names[i] := Numbered(base, n);
        used, next := used + {names[i]}, next[base := n + 1];
      }
      assert names[..i] == after && names[..i + 1] == after + [names[i]];
    }
    assert names[..names.Length] == names[..] && before[..names.Length] == before;
  }
}
