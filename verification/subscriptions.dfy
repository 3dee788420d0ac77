/** What a granted subscription lets a client read: OnACLCheck and mqttTopicMatch
    (internal/mqtt/server.go) with filters that contain wildcards. */
module Subscriptions {
  import opened Text
  import opened Routing

  /** A "+" stands at the level, or a "#" there or before. */
  predicate CoveredAt(filter: seq<string>, i: nat) {
    (i < |filter| && filter[i] == "+") || exists j :: 0 <= j <= i && j < |filter| && filter[j] == "#"
  }

  lemma CoveredTail(filter: seq<string>, i: nat)
    requires filter != [] && filter[0] != "#"
    ensures CoveredAt(filter, i + 1) <==> CoveredAt(filter[1..], i)
  {
    var rest := filter[1..];
    if j :| 0 <= j <= i + 1 && j < |filter| && filter[j] == "#" {
      assert rest[j - 1] == "#";
    }
    if j :| 0 <= j <= i && j < |rest| && rest[j] == "#" {
      assert filter[j + 1] == "#";
    }
  }

  /** A filter that matches one topic matches another of as many levels exactly when every level at
      which the two differ is covered. */
  lemma {:induction false} MatchesOtherIff(filter: seq<string>, a: seq<string>, b: seq<string>)
    requires |a| == |b| && LevelsMatch(filter, a)
    ensures LevelsMatch(filter, b) <==> forall i: nat :: i < |a| && a[i] != b[i] ==> CoveredAt(filter, i)
  {
    if filter != [] && filter[0] == "#" {
      assert forall i: nat :: CoveredAt(filter, i) by { assert filter[0] == "#"; }
    } else if filter != [] {
      var a', b', rest := a[1..], b[1..], filter[1..];
      MatchesOtherIff(rest, a', b');
      assert CoveredAt(filter, 0) <==> filter[0] == "+";
      forall i: nat ensures CoveredAt(filter, i + 1) <==> CoveredAt(rest, i) { CoveredTail(filter, i); }
      if forall i: nat :: i < |a| && a[i] != b[i] ==> CoveredAt(filter, i) {
        forall i: nat | i < |a'| && a'[i] != b'[i] ensures CoveredAt(rest, i) {
          assert a[i + 1] != b[i + 1] && CoveredAt(filter, i + 1);
        }
      }
      if LevelsMatch(filter, b) {
        forall i: nat | i < |a| && a[i] != b[i] ensures CoveredAt(filter, i) {
          if i > 0 { assert a'[i - 1] != b'[i - 1] && CoveredAt(rest, i - 1) && CoveredAt(filter, i - 1 + 1); }
        }
      }
    }
  }

  // ---------------------------------------------------------------- the levels of a device's topic

  predicate SlashFree(s: string) {
    forall c :: c in s ==> !IsSlash(c)
  }

  lemma {:induction false} SplitPrefix(a: string, b: string)
    requires SlashFree(a)
    ensures Split(a + b) == [a + Split(b)[0]] + Split(b)[1..]
  {
    if a == [] {
      assert a + b == b && a + Split(b)[0] == Split(b)[0];
      assert Split(b) == [Split(b)[0]] + Split(b)[1..];
    } else {
      assert a[0] in a;
      assert (a + b)[1..] == a[1..] + b;
      SplitPrefix(a[1..], b);
      assert [a[0]] + (a[1..] + Split(b)[0]) == a + Split(b)[0];
    }
  }

  lemma {:induction false} FirstLevelIsPrefix(s: string)
    ensures Split(s)[0] <= s
  {
    if s != [] && !IsSlash(s[0]) {
      FirstLevelIsPrefix(s[1..]);
      assert s == [s[0]] + s[1..];
    }
  }

  lemma PlaceholderFilled(x: string, d: string)
    ensures ReplaceAll(PLACEHOLDER + x, d) == d + ReplaceAll(x, d)
  {
    var s := PLACEHOLDER + x;
    assert s[..|PLACEHOLDER|] == PLACEHOLDER && s[|PLACEHOLDER|..] == x;
  }

  lemma FirstKept(c: char, rest: string, d: string)
    requires !HasPrefix([c] + rest, PLACEHOLDER)
    ensures var level := Split(rest)[0]; ReplaceAll([c] + level, d) == [c] + ReplaceAll(level, d)
  {
    var level := Split(rest)[0];
    var s, t := [c] + rest, [c] + level;
    FirstLevelIsPrefix(rest);
    assert t <= s;
    if |t| >= |PLACEHOLDER| {
      assert t[..|PLACEHOLDER|] == s[..|PLACEHOLDER|];
    }
    assert !HasPrefix(t, PLACEHOLDER);
    assert t[1..] == level;
  }

  lemma PlaceholderHasNoSlash()
    ensures SlashFree(PLACEHOLDER)
  {
  }

  predicate LevelsFilled(s: string, d: string) {
    |Split(ReplaceAll(s, d))| == |Split(s)|
    && forall i :: 0 <= i < |Split(s)| ==> Split(ReplaceAll(s, d))[i] == ReplaceAll(Split(s)[i], d)
  }

  lemma FilledAfterPlaceholder(rest: string, d: string)
    requires SlashFree(d) && LevelsFilled(rest, d)
    ensures LevelsFilled(PLACEHOLDER + rest, d)
  {
    PlaceholderHasNoSlash();
    PlaceholderFilled(rest, d);
    SplitPrefix(PLACEHOLDER, rest);
    SplitPrefix(d, ReplaceAll(rest, d));
    PlaceholderFilled(Split(rest)[0], d);
  }

  lemma FilledAfterChar(c: char, rest: string, d: string)
    requires LevelsFilled(rest, d) && !HasPrefix([c] + rest, PLACEHOLDER)
    ensures LevelsFilled([c] + rest, d)
  {
    var s := [c] + rest;
    assert s[1..] == rest;
    assert ReplaceAll(s, d) == [c] + ReplaceAll(rest, d);
    assert ([c] + ReplaceAll(rest, d))[1..] == ReplaceAll(rest, d);
    if IsSlash(c) {
      assert ReplaceAll("", d) == "";
    } else {
      FirstKept(c, rest, d);
    }
  }

  /** Filling in an id without a slash fills in the levels one by one. */
  lemma {:induction false} FillsLevels(s: string, d: string)
    requires SlashFree(d)
    ensures LevelsFilled(s, d)
    decreases |s|
  {
    if s == [] {
      assert Split(s) == [""];
    } else if HasPrefix(s, PLACEHOLDER) {
      var rest := s[|PLACEHOLDER|..];
      assert s == PLACEHOLDER + rest;
      FillsLevels(rest, d);
      FilledAfterPlaceholder(rest, d);
    } else {
      assert s == [s[0]] + s[1..];
      FillsLevels(s[1..], d);
      FilledAfterChar(s[0], s[1..], d);
    }
  }

  lemma {:induction false} NothingToFill(s: string, d: string)
    requires !Mentions(s)
    ensures ReplaceAll(s, d) == s
  {
    if s != [] {
      NothingToFill(s[1..], d);
      assert s == [s[0]] + s[1..];
    }
  }

  /** Two devices' fillings of a level differ exactly when it mentions the placeholder. */
  lemma LevelsDifferIff(level: string, d: string, d': string)
    requires d != d' && |d| == |d'|
    ensures ReplaceAll(level, d) != ReplaceAll(level, d') <==> Mentions(level)
  {
    if Mentions(level) {
      ReplaceSameLength(level, d, d');
    } else {
      NothingToFill(level, d);
      NothingToFill(level, d');
    }
  }

  // ---------------------------------------------------------------- confinement

  /** A filter granted to one device also reads another's command topic exactly when every level of
      the topic template that mentions the device id is covered, by a "+" at that level or a "#"
      there or before. */
  lemma GrantCoversOtherIff(topic: string, d: string, d': string, filter: string)
    requires PlainID(d) && PlainID(d') && !HasWildcard(d) && !HasWildcard(d') && d != d' && |d| == |d'|
    requires AclAllows(ResolveRouting(topic, d), filter, false)
    ensures LevelsMatch(Levels(filter), Levels(ResolveRouting(topic, d').down)) <==>
              var levels := Split(CommandPattern(topic));
              forall i: nat :: i < |levels| && Mentions(levels[i]) ==> CoveredAt(Levels(filter), i)
  {
    var pattern := CommandPattern(topic);
    CommandTopicFromPattern(topic, d);
    CommandTopicFromPattern(topic, d');
    FillsLevels(pattern, d);
    FillsLevels(pattern, d');
    var levels, a, b := Split(pattern), Split(ReplaceAll(pattern, d)), Split(ReplaceAll(pattern, d'));
    MatchesOtherIff(Levels(filter), a, b);
    forall i | 0 <= i < |levels| ensures a[i] != b[i] <==> Mentions(levels[i]) {
      LevelsDifferIff(levels[i], d, d');
    }
  }
}
