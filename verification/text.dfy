/** The parts of Go's `strings`, `unicode` and `sort` packages that the platform
    leans on. A string is a sequence of code points, so Go's byte-wise order of
    UTF-8 strings is the order used here. */
module Text {

  // ----- unicode.IsSpace and strings.ToLower -----

  predicate IsSpace(c: char) {
    || '\t' <= c <= '\r'
    || c == ' ' || c == '\U{0085}' || c == '\U{00A0}' || c == '\U{1680}'
    || '\U{2000}' <= c <= '\U{200A}'
    || c == '\U{2028}' || c == '\U{2029}' || c == '\U{202F}' || c == '\U{205F}' || c == '\U{3000}'
  }

  /** Lower case of one code point. The Kelvin sign and the dotted capital I are the only
      code points outside ASCII whose lower case is an ASCII letter. */
  function Lower(c: char): char {
    if 'A' <= c <= 'Z' then (c as int + 32) as char
    else if c == '\U{212A}' then 'k'
    else if c == '\U{0130}' then 'i'
    else c
  }

  function ToLower(s: string): string {
    seq(|s|, i requires 0 <= i < |s| => Lower(s[i]))
  }

  // ----- strings.Trim and its one-sided forms -----

  function TrimLeft(cut: char -> bool, s: string): string {
    if s != [] && cut(s[0]) then TrimLeft(cut, s[1..]) else s
  }

  function TrimRight(cut: char -> bool, s: string): string {
    if s != [] && cut(s[|s| - 1]) then TrimRight(cut, s[..|s| - 1]) else s
  }

  function Trim(cut: char -> bool, s: string): string {
    TrimRight(cut, TrimLeft(cut, s))
  }

  function TrimSpace(s: string): string {
    Trim(IsSpace, s)
  }

  predicate IsSlash(c: char) {
    c == '/'
  }

  predicate Trimmed(cut: char -> bool, s: string) {
    s == [] || (!cut(s[0]) && !cut(s[|s| - 1]))
  }

  lemma {:induction false} TrimLeftIsSuffix(cut: char -> bool, s: string)
    ensures var r := TrimLeft(cut, s);
            |r| <= |s| && r == s[|s| - |r|..] && (r == [] || !cut(r[0]))
            && forall i :: 0 <= i < |s| - |r| ==> cut(s[i])
  {
    if s != [] && cut(s[0]) {
      TrimLeftIsSuffix(cut, s[1..]);
      assert forall i :: 1 <= i < |s| ==> s[i] == s[1..][i - 1];
    }
  }

  lemma {:induction false} TrimRightIsPrefix(cut: char -> bool, s: string)
    ensures var r := TrimRight(cut, s);
            |r| <= |s| && r == s[..|r|] && (r == [] || !cut(r[|r| - 1]))
            && forall i :: |r| <= i < |s| ==> cut(s[i])
  {
    if s != [] && cut(s[|s| - 1]) {
      TrimRightIsPrefix(cut, s[..|s| - 1]);
    }
  }

  /** Trimming removes every cut character at both ends, and only strings without one are left alone. */
  lemma TrimIsTrimmed(cut: char -> bool, s: string)
    ensures Trimmed(cut, Trim(cut, s))
    ensures Trim(cut, s) == s <==> Trimmed(cut, s)
  {
    TrimLeftIsSuffix(cut, s);
    TrimRightIsPrefix(cut, TrimLeft(cut, s));
  }

  lemma LowerTwice(s: string)
    ensures ToLower(ToLower(s)) == ToLower(s)
  {
  }

  /** Lowering what was trimmed leaves nothing more to do for either. */
  lemma LowerAfterTrim(s: string)
    ensures var v := ToLower(TrimSpace(s)); ToLower(v) == v && TrimSpace(v) == v
  {
    var v := ToLower(TrimSpace(s));
    TrimIsTrimmed(IsSpace, s);
    TrimIsTrimmed(IsSpace, v);
    LowerTwice(TrimSpace(s));
  }

  /** Nor does trimming what was lowered. */
  lemma TrimAfterLower(s: string)
    ensures var w := TrimSpace(ToLower(s)); ToLower(w) == w && TrimSpace(w) == w
  {
    var l := ToLower(s);
    var m := TrimLeft(IsSpace, l);
    var w := TrimSpace(l);
    TrimLeftIsSuffix(IsSpace, l);
    TrimRightIsPrefix(IsSpace, m);
    forall i | 0 <= i < |w| ensures ToLower(w)[i] == w[i] {
      assert w[i] == m[i] == l[|l| - |m| + i] == Lower(s[|l| - |m| + i]);
    }
    assert ToLower(w) == w;
    TrimIsTrimmed(IsSpace, l);
    TrimIsTrimmed(IsSpace, w);
  }

  // ----- suffixes -----

  predicate HasSuffix(s: string, suffix: string) {
    |suffix| <= |s| && s[|s| - |suffix|..] == suffix
  }

  predicate HasPrefix(s: string, prefix: string) {
    |prefix| <= |s| && s[..|prefix|] == prefix
  }

  // ----- sort.Strings -----

  predicate Leq(a: string, b: string) {
    a == [] || (b != [] && (a[0] < b[0] || (a[0] == b[0] && Leq(a[1..], b[1..]))))
  }

  lemma {:induction false} LeqTotal(a: string, b: string)
    ensures Leq(a, b) || Leq(b, a)
    ensures Leq(a, b) && Leq(b, a) ==> a == b
  {
    if a != [] && b != [] && a[0] == b[0] {
      LeqTotal(a[1..], b[1..]);
      assert a == [a[0]] + a[1..] && b == [b[0]] + b[1..];
    }
  }

  lemma {:induction false} LeqTransitive(a: string, b: string, c: string)
    requires Leq(a, b) && Leq(b, c)
    ensures Leq(a, c)
  {
    if a != [] && b != [] && c != [] && a[0] == b[0] == c[0] {
      LeqTransitive(a[1..], b[1..], c[1..]);
    }
  }

  ghost predicate Sorted(s: seq<string>) {
    forall i, j :: 0 <= i < j < |s| ==> Leq(s[i], s[j])
  }

  function Insert(x: string, s: seq<string>): (r: seq<string>)
    ensures multiset(r) == multiset(s) + multiset{x}
  {
    if s == [] || Leq(x, s[0]) then [x] + s
    else
      assert s == [s[0]] + s[1..];
      [s[0]] + Insert(x, s[1..])
  }

  function Sort(s: seq<string>): (r: seq<string>)
    ensures multiset(r) == multiset(s)
  {
    if s == [] then []
    else
      assert s == [s[0]] + s[1..];
      Insert(s[0], Sort(s[1..]))
  }

  lemma {:induction false} InsertKeepsSorted(x: string, s: seq<string>)
    requires Sorted(s)
    ensures Sorted(Insert(x, s))
  {
    if s == [] {
    } else if Leq(x, s[0]) {
      forall j | 0 <= j < |s| ensures Leq(x, s[j]) {
        if j > 0 { LeqTransitive(x, s[0], s[j]); }
      }
    } else {
      LeqTotal(x, s[0]);
      InsertKeepsSorted(x, s[1..]);
      var t := Insert(x, s[1..]);
      forall y | y in t ensures Leq(s[0], y) {
        assert y in multiset(t);
        assert y == x || y in s[1..];
      }
    }
  }

  lemma {:induction false} SortIsSorted(s: seq<string>)
    ensures Sorted(Sort(s))
  {
    if s != [] {
      SortIsSorted(s[1..]);
      InsertKeepsSorted(s[0], Sort(s[1..]));
    }
  }

  lemma FirstIsLeast(s: seq<string>, x: string)
    requires Sorted(s) && x in multiset(s)
    ensures s != [] && Leq(s[0], x)
  {
    LeqTotal(x, x);
  }

  /** A multiset of strings has one sorted listing. */
  lemma {:induction false} SortedUnique(a: seq<string>, b: seq<string>)
    requires Sorted(a) && Sorted(b) && multiset(a) == multiset(b)
    ensures a == b
  {
    assert |multiset(a)| == |a| && |multiset(b)| == |b|;
    if a != [] {
      FirstIsLeast(b, a[0]);
      FirstIsLeast(a, b[0]);
      LeqTotal(a[0], b[0]);
      TailMultiset(a);
      TailMultiset(b);
      SortedUnique(a[1..], b[1..]);
    }
  }

  lemma TailMultiset(s: seq<string>)
    requires s != []
    ensures s == [s[0]] + s[1..] && multiset(s[1..]) == multiset(s) - multiset{s[0]}
  {
    assert s == [s[0]] + s[1..];
  }

  /** Two lists sort alike exactly when they hold the same strings equally often. */
  lemma SortAgrees(a: seq<string>, b: seq<string>)
    ensures Sort(a) == Sort(b) <==> multiset(a) == multiset(b)
  {
    SortIsSorted(a);
    SortIsSorted(b);
    if multiset(a) == multiset(b) {
      SortedUnique(Sort(a), Sort(b));
    }
  }
}
