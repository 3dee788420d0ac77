/** MQTT topic routing: resolveRouting, mqttTopicMatch and OnACLCheck of the broker
    (internal/mqtt/server.go), and mqttPublishTopic of the load generator. */
module Routing {
  import opened Text

  const PLACEHOLDER := "{device_id}"
  const DEFAULT_TOPIC := "devices/{device_id}/up"
  const UP := "/up"
  const DOWN := "/down"
  const ACK := "/ack"

  predicate HasWildcard(s: string) {
    exists c :: c in s && (c == '+' || c == '#')
  }

  /** strings.ReplaceAll(s, "{device_id}", d). */
  function ReplaceAll(s: string, d: string): string
    decreases |s|
  {
    if s == [] then []
    else if HasPrefix(s, PLACEHOLDER) then d + ReplaceAll(s[|PLACEHOLDER|..], d)
    else [s[0]] + ReplaceAll(s[1..], d)
  }

  predicate Mentions(s: string) {
    s != [] && (HasPrefix(s, PLACEHOLDER) || Mentions(s[1..]))
  }

  function TemplateOf(topic: string): string {
    var t := TrimSpace(topic);
    if t == "" then DEFAULT_TOPIC else t
  }

  function WithUpSuffix(t: string): string {
    if HasSuffix(t, UP) then t else TrimRight(IsSlash, t) + UP
  }

  function PublishTopic(topic: string, deviceID: string): string {
    var t := ReplaceAll(TemplateOf(topic), deviceID);
    WithUpSuffix(if HasWildcard(t) then "devices/" + deviceID + UP else t)
  }

  datatype Route = Route(up: string, down: string, ack: string)

  function ResolveRouting(topic: string, deviceID: string): Route {
    var up := PublishTopic(topic, deviceID);
    var base := if HasSuffix(up, UP) then up[..|up| - |UP|] else up;
    Route(up, base + DOWN, base + ACK)
  }

  // ---------------------------------------------------------------- replacing

  lemma {:induction false} ReplaceWithItself(s: string)
    ensures ReplaceAll(s, PLACEHOLDER) == s
    decreases |s|
  {
    if s != [] {
      if HasPrefix(s, PLACEHOLDER) {
        ReplaceWithItself(s[|PLACEHOLDER|..]);
        assert s == PLACEHOLDER + s[|PLACEHOLDER|..];
      } else {
        ReplaceWithItself(s[1..]);
        assert s == [s[0]] + s[1..];
      }
    }
  }

  /** A match never crosses a slash. */
  lemma {:induction false} ReplaceSplitsAtSlash(a: string, b: string, d: string)
    requires b == [] || IsSlash(b[0])
    ensures ReplaceAll(a + b, d) == ReplaceAll(a, d) + ReplaceAll(b, d)
    decreases |a|
  {
    var s := a + b;
    if a == [] {
      assert s == b;
    } else {
      PrefixStaysLeft(a, b);
      if HasPrefix(a, PLACEHOLDER) {
        var n := |PLACEHOLDER|;
        assert s[n..] == a[n..] + b;
        ReplaceSplitsAtSlash(a[n..], b, d);
      } else {
        assert s[1..] == a[1..] + b;
        ReplaceSplitsAtSlash(a[1..], b, d);
        assert s[0] == a[0];
      }
    }
  }

  lemma PrefixStaysLeft(a: string, b: string)
    requires a != [] && (b == [] || IsSlash(b[0]))
    ensures HasPrefix(a + b, PLACEHOLDER) <==> HasPrefix(a, PLACEHOLDER)
  {
    var n := |PLACEHOLDER|;
    if |a| >= n {
      assert (a + b)[..n] == a[..n];
    } else if |a + b| >= n {
      assert (a + b)[..n][|a|] == '/';
      assert PLACEHOLDER[|a|] != '/';
    }
  }

  lemma StartsWithBrace(s: string)
    ensures HasPrefix(s, PLACEHOLDER) ==> s[0] == '{'
  {
    if HasPrefix(s, PLACEHOLDER) {
      assert s[..|PLACEHOLDER|][0] == '{';
    }
  }

  lemma {:induction false} ReplaceNoBrace(s: string, d: string)
    requires forall c :: c in s ==> c != '{'
    ensures ReplaceAll(s, d) == s
  {
    if s != [] {
      assert s[0] in s;
      assert forall c :: c in s[1..] ==> c in s;
      StartsWithBrace(s);
      ReplaceNoBrace(s[1..], d);
      assert s == [s[0]] + s[1..];
    }
  }

  lemma ReplaceKeepsUp(a: string, d: string)
    ensures ReplaceAll(a + UP, d) == ReplaceAll(a, d) + UP
  {
    ReplaceSplitsAtSlash(a, UP, d);
    ReplaceNoBrace(UP, d);
  }

  /** t without its trailing slashes, which replacing leaves in place. */
  lemma ReplaceKeepsSlashes(t: string, d: string)
    ensures var b := TrimRight(IsSlash, t);
            |b| <= |t| && ReplaceAll(t, d) == ReplaceAll(b, d) + t[|b|..]
            && forall i :: |b| <= i < |t| ==> IsSlash(t[i])
  {
    TrimRightIsPrefix(IsSlash, t);
    var b := TrimRight(IsSlash, t);
    assert t == b + t[|b|..];
    assert forall c :: c in t[|b|..] ==> IsSlash(c);
    ReplaceSplitsAtSlash(b, t[|b|..], d);
    ReplaceNoBrace(t[|b|..], d);
  }

  lemma {:induction false} TrimRightOfSlashes(b: string, slashes: string)
    requires forall c :: c in slashes ==> IsSlash(c)
    ensures TrimRight(IsSlash, b + slashes) == TrimRight(IsSlash, b)
    decreases |slashes|
  {
    if slashes == [] {
      assert b + slashes == b;
    } else {
      var n := |slashes| - 1;
      assert slashes[n] in slashes;
      assert (b + slashes)[..|b| + n] == b + slashes[..n];
      TrimRightOfSlashes(b, slashes[..n]);
    }
  }

  lemma {:induction false} WildcardsAfterReplace(s: string, d: string)
    ensures HasWildcard(ReplaceAll(s, d)) <==> HasWildcard(s) || (Mentions(s) && HasWildcard(d))
    decreases |s|
  {
    if s != [] {
      var n := |PLACEHOLDER|;
      if HasPrefix(s, PLACEHOLDER) {
        WildcardsAfterReplace(s[n..], d);
        assert s == PLACEHOLDER + s[n..];
        LiteralsHaveNoWildcard();
        WildcardsOfConcat(PLACEHOLDER, s[n..]);
        WildcardsOfConcat(d, ReplaceAll(s[n..], d));
      } else {
        WildcardsAfterReplace(s[1..], d);
        assert s == [s[0]] + s[1..];
        WildcardsOfConcat([s[0]], s[1..]);
        WildcardsOfConcat([s[0]], ReplaceAll(s[1..], d));
      }
    }
  }

  lemma WildcardsOfConcat(a: string, b: string)
    ensures HasWildcard(a + b) <==> HasWildcard(a) || HasWildcard(b)
  {
    if HasWildcard(a) {
      var c :| c in a && (c == '+' || c == '#');
      assert c in a + b;
    }
    if HasWildcard(b) {
      var c :| c in b && (c == '+' || c == '#');
      assert c in a + b;
    }
  }

  lemma {:induction false} MentionsSplitsAtSlash(a: string, b: string)
    requires b == [] || IsSlash(b[0])
    ensures Mentions(a + b) <==> Mentions(a) || Mentions(b)
  {
    if a == [] {
      assert a + b == b;
    } else {
      PrefixStaysLeft(a, b);
      assert (a + b)[1..] == a[1..] + b;
      MentionsSplitsAtSlash(a[1..], b);
    }
  }

  lemma {:induction false} NoBraceNoMention(s: string)
    requires forall c :: c in s ==> c != '{'
    ensures !Mentions(s)
  {
    if s != [] {
      assert s[0] in s;
      assert forall c :: c in s[1..] ==> c in s;
      StartsWithBrace(s);
      NoBraceNoMention(s[1..]);
    }
  }

  lemma LiteralsHaveNoWildcard()
    ensures !HasWildcard(UP) && !HasWildcard(DOWN) && !HasWildcard(PLACEHOLDER) && !HasWildcard(DEFAULT_TOPIC)
  {
  }

  lemma SlashesAreInert(slashes: string)
    requires forall c :: c in slashes ==> IsSlash(c)
    ensures !Mentions(slashes) && !HasWildcard(slashes)
  {
    assert forall c :: c in slashes ==> c != '{' && c != '+' && c != '#';
    NoBraceNoMention(slashes);
  }

  lemma SlashesThenUp(b: string, slashes: string)
    requires forall c :: c in slashes ==> IsSlash(c)
    ensures Mentions(b + UP) == Mentions(b + slashes)
    ensures HasWildcard(b + UP) == HasWildcard(b + slashes)
  {
    SlashesAreInert(slashes);
    NoBraceNoMention(UP);
    LiteralsHaveNoWildcard();
    assert slashes != [] ==> slashes[0] in slashes;
    MentionsSplitsAtSlash(b, slashes);
    MentionsSplitsAtSlash(b, UP);
    WildcardsOfConcat(b, slashes);
    WildcardsOfConcat(b, UP);
  }

  lemma TrailingSlashes(t: string)
    ensures var b := TrimRight(IsSlash, t); |b| <= |t| && t == b + t[|b|..] && forall c :: c in t[|b|..] ==> IsSlash(c)
  {
    TrimRightIsPrefix(IsSlash, t);
  }

  /** Adding the suffix neither adds nor removes a placeholder or a wildcard. */
  lemma SuffixedTemplate(t: string)
    ensures Mentions(WithUpSuffix(t)) == Mentions(t)
    ensures HasWildcard(WithUpSuffix(t)) == HasWildcard(t)
  {
    TrailingSlashes(t);
    var b := TrimRight(IsSlash, t);
    SlashesThenUp(b, t[|b|..]);
  }

  // ---------------------------------------------------------------- commutation

  /** The topic the load generator stores in the product's access profile. */
  function StoredTemplate(topic: string): string {
    PublishTopic(topic, PLACEHOLDER)
  }

  /** What an operator can check of a template and a device id: nothing goes wrong unless the
      expanded template itself ends in "/up" where the template does not, or, its own trailing
      slashes aside, ends in a slash of the id. */
  predicate Commutes(topic: string, d: string) {
    var t := TemplateOf(topic);
    var expanded := ReplaceAll(t, d);
    || HasWildcard(expanded)
    || HasSuffix(t, UP)
    || (!HasSuffix(expanded, UP) && !HasSuffix(ReplaceAll(TrimRight(IsSlash, t), d), "/"))
  }

  lemma TemplateTrimmed(topic: string)
    ensures TemplateOf(topic) != "" && Trimmed(IsSpace, TemplateOf(topic))
  {
    TrimIsTrimmed(IsSpace, topic);
  }

  lemma UpSuffixTrimmed(t: string)
    requires t != "" && Trimmed(IsSpace, t)
    ensures var f := WithUpSuffix(t); HasSuffix(f, UP) && TemplateOf(f) == f
  {
    var f := WithUpSuffix(t);
    TrimRightIsPrefix(IsSlash, t);
    var b := TrimRight(IsSlash, t);
    assert f[0] == t[0];
    assert f[|f| - 1] == UP[2];
    assert Trimmed(IsSpace, f);
    TrimIsTrimmed(IsSpace, f);
  }

  lemma ResolveOfSuffixed(f: string, d: string)
    requires f != "" && TemplateOf(f) == f && HasSuffix(f, UP)
    ensures PublishTopic(f, d) == if HasWildcard(ReplaceAll(f, d)) then "devices/" + d + UP else ReplaceAll(f, d)
  {
    var a := f[..|f| - |UP|];
    assert f == a + UP;
    ReplaceKeepsUp(a, d);
    assert HasSuffix(ReplaceAll(a, d) + UP, UP);
    assert HasSuffix("devices/" + d + UP, UP);
  }

  lemma StoredIs(topic: string)
    ensures var t := TemplateOf(topic);
            StoredTemplate(topic) == if HasWildcard(t) then DEFAULT_TOPIC else WithUpSuffix(t)
  {
    ReplaceWithItself(TemplateOf(topic));
    DefaultShape();
  }

  lemma DefaultShape()
    ensures DEFAULT_TOPIC == "devices/" + (PLACEHOLDER + UP) == "devices/" + PLACEHOLDER + UP
    ensures HasSuffix(DEFAULT_TOPIC, UP) && Trimmed(IsSpace, DEFAULT_TOPIC)
  {
  }

  lemma DefaultExpanded(d: string)
    ensures PublishTopic(DEFAULT_TOPIC, d) == "devices/" + d + UP
  {
    DefaultShape();
    TrimIsTrimmed(IsSpace, DEFAULT_TOPIC);
    UpOfDefault(d);
    ResolveOfSuffixed(DEFAULT_TOPIC, d);
  }

  lemma PlaceholderAlone(d: string)
    ensures ReplaceAll(PLACEHOLDER, d) == d
  {
    assert PLACEHOLDER[|PLACEHOLDER|..] == [];
    assert ReplaceAll([], d) == [];
  }

  lemma {:induction false} PlaceholderAfter(a: string, d: string)
    requires forall c :: c in a ==> c != '{'
    ensures ReplaceAll(a + PLACEHOLDER, d) == a + d
  {
    var s := a + PLACEHOLDER;
    if a == [] {
      assert s == PLACEHOLDER;
      PlaceholderAlone(d);
    } else {
      assert a[0] in a;
      assert s[0] == a[0];
      StartsWithBrace(s);
      assert s[1..] == a[1..] + PLACEHOLDER;
      assert forall c :: c in a[1..] ==> c in a;
      PlaceholderAfter(a[1..], d);
      assert a == [a[0]] + a[1..];
    }
  }

  /** Resolving the stored template gives the topic the load generator publishes to, exactly
      when `Commutes` says so. */
  lemma CommutesIff(topic: string, d: string)
    ensures ResolveRouting(StoredTemplate(topic), d).up == PublishTopic(topic, d) <==> Commutes(topic, d)
  {
    var t := TemplateOf(topic);
    StoredIs(topic);
    TemplateTrimmed(topic);
    WildcardsAfterReplace(t, d);
    var expanded := ReplaceAll(t, d);
    if HasWildcard(t) {
      DefaultExpanded(d);
      assert HasSuffix("devices/" + d + UP, UP);
    } else {
      var f := WithUpSuffix(t);
      UpSuffixTrimmed(t);
      SuffixedTemplate(t);
      WildcardsAfterReplace(f, d);
      ResolveOfSuffixed(f, d);
      if HasWildcard(expanded) {
        assert HasSuffix("devices/" + d + UP, UP);
      } else {
        CommutesPlain(t, d);
      }
    }
  }

  lemma ShortTemplate()
    ensures var t := "devices/" + PLACEHOLDER;
            TemplateOf(t) == t && !HasSuffix(t, UP) && ReplaceAll(t, "up") == "devices/up"
  {
    var t := "devices/" + PLACEHOLDER;
    assert Trimmed(IsSpace, t);
    TrimIsTrimmed(IsSpace, t);
    PlaceholderAfter("devices/", "up");
    SuffixesByPlace(t);
  }

  /** An id shorter than the suffix can complete it: with the template "devices/{device_id}" a
      device named "up" would listen on another topic than the load generator publishes to. */
  lemma ShortIDDiffers()
    ensures var t := "devices/" + PLACEHOLDER; ResolveRouting(StoredTemplate(t), "up").up != PublishTopic(t, "up")
  {
    ShortTemplate();
    assert forall c :: c in "devices/up" ==> c != '+' && c != '#';
    SuffixesByPlace("devices/up");
    CommutesIff("devices/" + PLACEHOLDER, "up");
  }

  predicate EndsInSlash(s: string) {
    s != [] && IsSlash(s[|s| - 1])
  }

  predicate EndsInUp(s: string) {
    |s| >= 3 && s[|s| - 3] == '/' && s[|s| - 2] == 'u' && s[|s| - 1] == 'p'
  }

  lemma SuffixesByPlace(s: string)
    ensures HasSuffix(s, "/") <==> EndsInSlash(s)
    ensures HasSuffix(s, UP) <==> EndsInUp(s)
  {
    if s != [] {
      assert s[|s| - 1..] == [s[|s| - 1]];
    }
    if |s| >= 3 {
      assert s[|s| - 3..] == [s[|s| - 3], s[|s| - 2], s[|s| - 1]];
    }
  }

  lemma CommutesPlain(t: string, d: string)
    ensures ReplaceAll(WithUpSuffix(t), d) == WithUpSuffix(ReplaceAll(t, d))
       <==> HasSuffix(t, UP)
            || (!HasSuffix(ReplaceAll(t, d), UP) && !HasSuffix(ReplaceAll(TrimRight(IsSlash, t), d), "/"))
  {
    if HasSuffix(t, UP) {
      var a := t[..|t| - |UP|];
      assert t == a + UP;
      ReplaceKeepsUp(a, d);
      assert HasSuffix(ReplaceAll(a, d) + UP, UP);
    } else {
      var b := TrimRight(IsSlash, t);
      ReplaceKeepsUp(b, d);
      ReplaceKeepsSlashes(t, d);
      SuffixAfterSlashes(ReplaceAll(b, d), t[|b|..]);
    }
  }

  /** The suffix goes after e, whether or not slashes follow it, unless e itself ends in a slash
      or everything already ends in the suffix. */
  lemma SuffixAfterSlashes(e: string, slashes: string)
    requires forall c :: c in slashes ==> IsSlash(c)
    ensures e + UP == WithUpSuffix(e + slashes) <==> !HasSuffix(e + slashes, UP) && !HasSuffix(e, "/")
  {
    var expanded := e + slashes;
    SuffixesByPlace(expanded);
    SuffixesByPlace(e);
    if slashes != [] {
      assert expanded[|expanded| - 1] == slashes[|slashes| - 1];
      assert slashes[|slashes| - 1] in slashes;
    }
    if EndsInUp(expanded) {
      assert |expanded| < |e + UP|;
    } else {
      TrimRightOfSlashes(e, slashes);
      TrimRightIsPrefix(IsSlash, e);
      if EndsInSlash(e) {
        assert |TrimRight(IsSlash, e)| < |e|;
        assert |TrimRight(IsSlash, e) + UP| < |e + UP|;
      }
    }
  }

  /** Ids without a slash and at least as long as the suffix, like every generated one. */
  predicate PlainID(d: string) {
    |d| >= 3 && forall c :: c in d ==> !IsSlash(c)
  }

  lemma {:induction false} ReplaceShort(s: string, d: string)
    requires |d| >= 3 && |ReplaceAll(s, d)| < 3
    ensures ReplaceAll(s, d) == s
    decreases |s|
  {
    if s != [] && !HasPrefix(s, PLACEHOLDER) {
      ReplaceShort(s[1..], d);
      assert s == [s[0]] + s[1..];
    }
  }

  /** A plain id never completes a suffix the template did not have. */
  lemma SuffixFromTemplate(s: string, d: string)
    requires PlainID(d)
    ensures HasSuffix(ReplaceAll(s, d), UP) ==> HasSuffix(s, UP)
    ensures HasSuffix(ReplaceAll(s, d), "/") ==> HasSuffix(s, "/")
  {
    EndsFromTemplate(s, d);
    SuffixesByPlace(ReplaceAll(s, d));
    SuffixesByPlace(s);
  }

  lemma {:induction false} EndsFromTemplate(s: string, d: string)
    requires PlainID(d)
    ensures EndsInUp(ReplaceAll(s, d)) ==> EndsInUp(s)
    ensures EndsInSlash(ReplaceAll(s, d)) ==> EndsInSlash(s)
    decreases |s|
  {
    if s != [] {
      if HasPrefix(s, PLACEHOLDER) {
        var rest := s[|PLACEHOLDER|..];
        EndsFromTemplate(rest, d);
        EndsOnTheRight(d, ReplaceAll(rest, d));
        EndsOfSuffix(s, |PLACEHOLDER|);
      } else {
        EndsFromTemplate(s[1..], d);
        EndsOfSuffix(s, 1);
        if |ReplaceAll(s[1..], d)| < 3 {
          ReplaceShort(s[1..], d);
        }
        EndsAfterFirst(s[0], s[1..], ReplaceAll(s[1..], d));
        assert [s[0]] + s[1..] == s;
      }
    }
  }

  lemma EndsAfterFirst(c: char, rest: string, r: string)
    requires |r| < 3 ==> r == rest
    requires EndsInUp(r) ==> EndsInUp(rest)
    requires EndsInSlash(r) ==> EndsInSlash(rest)
    ensures EndsInUp([c] + r) ==> EndsInUp([c] + rest)
    ensures EndsInSlash([c] + r) ==> EndsInSlash([c] + rest)
  {
  }

  lemma EndsOfSuffix(s: string, k: nat)
    requires k <= |s|
    ensures EndsInUp(s[k..]) ==> EndsInUp(s)
    ensures EndsInSlash(s[k..]) ==> EndsInSlash(s)
  {
  }

  /** An end with a slash in it lies to the right of a plain id. */
  lemma EndsOnTheRight(d: string, r: string)
    requires PlainID(d)
    ensures EndsInUp(d + r) ==> EndsInUp(r)
    ensures EndsInSlash(d + r) ==> EndsInSlash(r)
  {
    if |r| < 3 {
      var i := |d + r| - 3;
      assert (d + r)[i] == d[i] && d[i] in d;
    }
    if r == [] {
      assert (d + r)[|d| - 1] == d[|d| - 1] && d[|d| - 1] in d;
    }
  }

  /** With a plain id the two sides agree for every template. */
  lemma PlainIDCommutes(topic: string, d: string)
    requires PlainID(d)
    ensures ResolveRouting(StoredTemplate(topic), d).up == PublishTopic(topic, d)
  {
    CommutesIff(topic, d);
    var t := TemplateOf(topic);
    var b := TrimRight(IsSlash, t);
    SuffixFromTemplate(t, d);
    SuffixFromTemplate(b, d);
    TrimRightIsPrefix(IsSlash, t);
    if b != [] {
      assert b[|b| - 1..][0] == b[|b| - 1];
    }
  }

  // ---------------------------------------------------------------- isolation

  lemma {:induction false} ReplaceSameLength(s: string, d: string, d': string)
    requires |d| == |d'|
    ensures |ReplaceAll(s, d)| == |ReplaceAll(s, d')|
    ensures Mentions(s) && d != d' ==> ReplaceAll(s, d) != ReplaceAll(s, d')
    decreases |s|
  {
    if s != [] {
      if HasPrefix(s, PLACEHOLDER) {
        var rest := s[|PLACEHOLDER|..];
        ReplaceSameLength(rest, d, d');
        if ReplaceAll(s, d) == ReplaceAll(s, d') {
          assert (d + ReplaceAll(rest, d))[..|d|] == (d' + ReplaceAll(rest, d'))[..|d|];
          assert d == d';
        }
      } else {
        ReplaceSameLength(s[1..], d, d');
        if ReplaceAll(s, d) == ReplaceAll(s, d') {
          assert ReplaceAll(s, d)[1..] == ReplaceAll(s[1..], d);
          assert ReplaceAll(s, d')[1..] == ReplaceAll(s[1..], d');
        }
      }
    }
  }

  /** The template with its placeholders still in it, from which a plain id's topic is filled in. */
  function Pattern(topic: string): string {
    var t := TemplateOf(topic);
    if HasWildcard(t) then DEFAULT_TOPIC else WithUpSuffix(t)
  }

  lemma TopicFromPattern(topic: string, d: string)
    requires PlainID(d) && !HasWildcard(d)
    ensures PublishTopic(topic, d) == ReplaceAll(Pattern(topic), d)
  {
    var t := TemplateOf(topic);
    WildcardsAfterReplace(t, d);
    if HasWildcard(t) {
      DefaultExpanded(d);
      WildcardsAfterReplace(DEFAULT_TOPIC, d);
      UpOfDefault(d);
    } else {
      var b := TrimRight(IsSlash, t);
      CommutesPlain(t, d);
      SuffixFromTemplate(t, d);
      SuffixFromTemplate(b, d);
      TrimRightIsPrefix(IsSlash, t);
      if b != [] { assert b[|b| - 1..][0] == b[|b| - 1]; }
    }
  }

  lemma UpOfDefault(d: string)
    ensures ReplaceAll(DEFAULT_TOPIC, d) == "devices/" + d + UP
    ensures HasSuffix("devices/" + d + UP, UP)
  {
    DefaultShape();
    ReplaceKeepsUp("devices/" + PLACEHOLDER, d);
    PlaceholderAfter("devices/", d);
    assert ("devices/" + d + UP)[|"devices/" + d|..] == UP;
  }

  lemma PatternMentions(topic: string)
    requires Mentions(TemplateOf(topic)) || HasWildcard(TemplateOf(topic))
    ensures Mentions(Pattern(topic))
  {
    var t := TemplateOf(topic);
    if HasWildcard(t) {
      var tail := PLACEHOLDER + UP;
      assert tail[..|PLACEHOLDER|] == PLACEHOLDER;
      assert Mentions(tail);
      DefaultShape();
      MentionsOnRight("devices/", tail);
    } else {
      SuffixedTemplate(t);
    }
  }

  lemma {:induction false} MentionsOnRight(a: string, b: string)
    requires Mentions(b)
    ensures Mentions(a + b)
  {
    if a == [] {
      assert a + b == b;
    } else {
      MentionsOnRight(a[1..], b);
      assert (a + b)[1..] == a[1..] + b;
    }
  }

  function Topics(r: Route): set<string> {
    {r.up, r.down, r.ack}
  }

  function Base(r: Route): string
    requires HasSuffix(r.up, UP)
  {
    r.up[..|r.up| - |UP|]
  }

  lemma RouteShape(topic: string, d: string)
    ensures var r := ResolveRouting(topic, d);
            HasSuffix(r.up, UP) && r.up == Base(r) + UP && r.down == Base(r) + DOWN && r.ack == Base(r) + ACK
  {
    var t := ReplaceAll(TemplateOf(topic), d);
    var w := if HasWildcard(t) then "devices/" + d + UP else t;
    if !HasSuffix(w, UP) {
      var b := TrimRight(IsSlash, w);
      assert (b + UP)[|b|..] == UP;
    }
  }

  /** One device's three topics are pairwise distinct, for every template and id. */
  lemma TopicsDistinct(topic: string, d: string)
    ensures |Topics(ResolveRouting(topic, d))| == 3
  {
    var r := ResolveRouting(topic, d);
    RouteShape(topic, d);
    assert |r.up| < |r.ack| < |r.down|;
  }

  /** Topics of distinct devices are disjoint. */
  lemma TopicsIsolated(topic: string, d: string, d': string)
    requires PlainID(d) && PlainID(d') && !HasWildcard(d) && !HasWildcard(d')
    requires d != d' && |d| == |d'|
    requires Mentions(TemplateOf(topic)) || HasWildcard(TemplateOf(topic))
    ensures Topics(ResolveRouting(topic, d)) !! Topics(ResolveRouting(topic, d'))
  {
    var r := ResolveRouting(topic, d);
    var r' := ResolveRouting(topic, d');
    TopicFromPattern(topic, d);
    TopicFromPattern(topic, d');
    PatternMentions(topic);
    ReplaceSameLength(Pattern(topic), d, d');
    RouteShape(topic, d);
    RouteShape(topic, d');
    assert |Base(r)| == |Base(r')| && Base(r) != Base(r');
    CrossTopics(Base(r), Base(r'));
  }

  lemma CrossTopics(b: string, b': string)
    requires |b| == |b'| && b != b'
    ensures {b + UP, b + DOWN, b + ACK} !! {b' + UP, b' + DOWN, b' + ACK}
  {
    forall x, y | x in {UP, DOWN, ACK} && y in {UP, DOWN, ACK}
      ensures b + x != b' + y
    {
      assert (b + x)[..|b|] == b && (b' + y)[..|b|] == b';
    }
  }

  // ---------------------------------------------------------------- topic filters

  function Split(s: string): (parts: seq<string>)
    ensures parts != []
  {
    if s == [] then [""]
    else
      var rest := Split(s[1..]);
      if IsSlash(s[0]) then [""] + rest else [[s[0]] + rest[0]] + rest[1..]
  }

  function Join(parts: seq<string>): string
    requires parts != []
  {
    if |parts| == 1 then parts[0] else parts[0] + "/" + Join(parts[1..])
  }

  lemma JoinEmptyFirst(rest: seq<string>)
    requires rest != []
    ensures Join([""] + rest) == ['/'] + Join(rest)
  {
    assert ([""] + rest)[1..] == rest;
    assert "" + "/" == ['/'];
  }

  lemma JoinLongerFirst(c: char, rest: seq<string>)
    requires rest != []
    ensures Join([[c] + rest[0]] + rest[1..]) == [c] + Join(rest)
  {
    var parts := [[c] + rest[0]] + rest[1..];
    assert parts[1..] == rest[1..];
    if |rest| > 1 {
      assert ([c] + rest[0]) + "/" + Join(rest[1..]) == [c] + (rest[0] + "/" + Join(rest[1..]));
    }
  }

  lemma {:induction false} JoinSplit(s: string)
    ensures Join(Split(s)) == s
  {
    if s != [] {
      JoinSplit(s[1..]);
      assert s == [s[0]] + s[1..];
      if IsSlash(s[0]) {
        JoinEmptyFirst(Split(s[1..]));
      } else {
        JoinLongerFirst(s[0], Split(s[1..]));
      }
    }
  }

  function Levels(s: string): seq<string> {
    Split(Trim(IsSlash, s))
  }

  function LevelsMatch(filter: seq<string>, topic: seq<string>): bool {
    if filter == [] then topic == []
    else if filter[0] == "#" then true
    else if topic == [] then false
    else (filter[0] == "+" || filter[0] == topic[0]) && LevelsMatch(filter[1..], topic[1..])
  }

  method TopicMatch(filter: string, topic: string) returns (r: bool)
    ensures r == LevelsMatch(Levels(filter), Levels(topic))
  {
    var filterParts := Split(Trim(IsSlash, filter));
    var topicParts := Split(Trim(IsSlash, topic));
    assert filterParts[0..] == filterParts && topicParts[0..] == topicParts;
    for index := 0 to |filterParts|
      invariant index <= |topicParts|
      invariant LevelsMatch(Levels(filter), Levels(topic)) == LevelsMatch(filterParts[index..], topicParts[index..])
    {
      if index >= |topicParts| {
        return filterParts[index] == "#";
      }
      assert filterParts[index..][1..] == filterParts[index + 1..];
      assert topicParts[index..][1..] == topicParts[index + 1..];
      if filterParts[index] == "#" {
        return true;
      } else if filterParts[index] == "+" {
      } else if filterParts[index] != topicParts[index] {
        return false;
      }
    }
    assert topicParts[|filterParts|..] == [] <==> |filterParts| == |topicParts|;
    return |filterParts| == |topicParts|;
  }

  predicate LevelFits(f: string, t: string) {
    f == "+" || f == t
  }

  ghost predicate FitUpTo(filter: seq<string>, topic: seq<string>, k: int) {
    0 <= k <= |filter| && k <= |topic| && forall i :: 0 <= i < k ==> LevelFits(filter[i], topic[i])
  }

  /** Matching, stated outright: the levels before some "#" fit, or all of them do and the
      lengths agree. A "#" also covers its parent level. */
  ghost predicate Matches(filter: seq<string>, topic: seq<string>) {
    || (exists k :: FitUpTo(filter, topic, k) && k < |filter| && filter[k] == "#")
    || (|filter| == |topic| && FitUpTo(filter, topic, |filter|))
  }

  lemma FitUpToStep(filter: seq<string>, topic: seq<string>, k: int)
    requires filter != [] && topic != [] && k >= 1
    ensures FitUpTo(filter, topic, k) <==> LevelFits(filter[0], topic[0]) && FitUpTo(filter[1..], topic[1..], k - 1)
  {
    var f, t := filter[1..], topic[1..];
    if FitUpTo(filter, topic, k) {
      assert forall i :: 0 <= i < k - 1 ==> f[i] == filter[i + 1] && t[i] == topic[i + 1];
    }
    if LevelFits(filter[0], topic[0]) && FitUpTo(f, t, k - 1) {
      forall i | 0 <= i < k ensures LevelFits(filter[i], topic[i]) {
        if i > 0 { assert LevelFits(f[i - 1], t[i - 1]); }
      }
    }
  }

  lemma {:induction false} MatchIff(filter: seq<string>, topic: seq<string>)
    ensures LevelsMatch(filter, topic) <==> Matches(filter, topic)
  {
    if filter == [] {
    } else if filter[0] == "#" {
      assert FitUpTo(filter, topic, 0);
    } else if topic != [] {
      var f, t := filter[1..], topic[1..];
      MatchIff(f, t);
      FitUpToStep(filter, topic, |filter|);
      if LevelFits(filter[0], topic[0]) {
        if k :| FitUpTo(f, t, k) && k < |f| && f[k] == "#" {
          FitUpToStep(filter, topic, k + 1);
          assert FitUpTo(filter, topic, k + 1) && filter[k + 1] == "#";
        }
      }
      if k :| FitUpTo(filter, topic, k) && k < |filter| && filter[k] == "#" {
        FitUpToStep(filter, topic, k);
        assert FitUpTo(f, t, k - 1) && f[k - 1] == "#";
      }
    }
  }

  // ---------------------------------------------------------------- access control

  /** OnACLCheck for a bound client: publishing to `topic`, or subscribing with it as filter. */
  function AclAllows(route: Route, topic: string, write: bool): bool {
    if write then topic == route.up || topic == route.ack
    else LevelsMatch(Levels(topic), Levels(route.down))
  }

  lemma {:induction false} LiteralLevels(parts: seq<string>, topic: seq<string>)
    requires forall p :: p in parts ==> p != "#" && p != "+"
    ensures LevelsMatch(parts, topic) <==> parts == topic
  {
    if parts != [] && topic != [] {
      assert parts[0] in parts;
      assert forall p :: p in parts[1..] ==> p in parts;
      LiteralLevels(parts[1..], topic[1..]);
      assert parts == [parts[0]] + parts[1..] && topic == [topic[0]] + topic[1..];
    } else if parts != [] {
      assert parts[0] in parts;
    }
  }

  lemma {:induction false} SplitHasNoWildcard(s: string)
    requires !HasWildcard(s)
    ensures forall p :: p in Split(s) ==> !HasWildcard(p)
  {
    if s != [] {
      assert s == [s[0]] + s[1..];
      WildcardsOfConcat([s[0]], s[1..]);
      SplitHasNoWildcard(s[1..]);
      var rest := Split(s[1..]);
      if !IsSlash(s[0]) {
        WildcardsOfConcat([s[0]], rest[0]);
      }
    }
  }

  /** A filter without wildcards is granted exactly when it names the device's own command
      topic, outer slashes aside. */
  lemma LiteralFilterIff(route: Route, filter: string)
    requires !HasWildcard(filter)
    ensures AclAllows(route, filter, false) <==> Trim(IsSlash, filter) == Trim(IsSlash, route.down)
  {
    var f := Trim(IsSlash, filter);
    TrimLeftIsSuffix(IsSlash, filter);
    TrimRightIsPrefix(IsSlash, TrimLeft(IsSlash, filter));
    assert forall c :: c in f ==> c in filter;
    SplitHasNoWildcard(f);
    assert '#' in "#" && '+' in "+";
    LiteralLevels(Split(f), Levels(route.down));
    JoinSplit(f);
    JoinSplit(Trim(IsSlash, route.down));
  }

  lemma {:induction false} TrimLeftOfReplace(s: string, d: string)
    requires PlainID(d)
    ensures TrimLeft(IsSlash, ReplaceAll(s, d)) == ReplaceAll(TrimLeft(IsSlash, s), d)
  {
    if s != [] {
      StartsWithBrace(s);
      if IsSlash(s[0]) {
        TrimLeftOfReplace(s[1..], d);
        assert ReplaceAll(s, d)[1..] == ReplaceAll(s[1..], d);
      } else {
        assert d[0] in d;
      }
    }
  }

  lemma {:induction false} TrimLeftKeepsMention(s: string)
    ensures Mentions(TrimLeft(IsSlash, s)) == Mentions(s)
  {
    if s != [] && IsSlash(s[0]) {
      StartsWithBrace(s);
      TrimLeftKeepsMention(s[1..]);
    }
  }

  lemma PatternSuffixed(topic: string)
    ensures HasSuffix(Pattern(topic), UP)
  {
    TemplateTrimmed(topic);
    UpSuffixTrimmed(TemplateOf(topic));
    DefaultShape();
  }

  /** The pattern of a device's topics, without the suffix. */
  function Stem(topic: string): string {
    var pattern := Pattern(topic);
    if HasSuffix(pattern, UP) then pattern[..|pattern| - |UP|] else pattern
  }

  lemma StemIsPattern(topic: string)
    ensures Pattern(topic) == Stem(topic) + UP
  {
    PatternSuffixed(topic);
  }

  lemma BaseFromStem(topic: string, d: string)
    requires PlainID(d) && !HasWildcard(d)
    ensures ResolveRouting(topic, d).down == ReplaceAll(Stem(topic), d) + DOWN
  {
    StemIsPattern(topic);
    ReplaceKeepsUp(Stem(topic), d);
    TopicFromPattern(topic, d);
    DownOf(topic, d, ReplaceAll(Stem(topic), d));
  }

  lemma DownOf(topic: string, d: string, base: string)
    requires PublishTopic(topic, d) == base + UP
    ensures ResolveRouting(topic, d).down == base + DOWN
  {
    assert HasSuffix(base + UP, UP);
    assert (base + UP)[..|base|] == base;
  }

  /** The command topics of a template, outer slashes aside, with the placeholders still in. */
  function CommandPattern(topic: string): string {
    TrimLeft(IsSlash, Stem(topic) + DOWN)
  }

  /** A device's command topic, outer slashes aside, is its id filled into one pattern. */
  lemma CommandTopicFromPattern(topic: string, d: string)
    requires PlainID(d) && !HasWildcard(d)
    ensures Trim(IsSlash, ResolveRouting(topic, d).down) == ReplaceAll(CommandPattern(topic), d)
  {
    BaseFromStem(topic, d);
    TrimmedFill(Stem(topic), d);
  }

  lemma TrimmedFill(stem: string, d: string)
    requires PlainID(d)
    ensures Trim(IsSlash, ReplaceAll(stem, d) + DOWN) == ReplaceAll(TrimLeft(IsSlash, stem + DOWN), d)
  {
    ReplaceSplitsAtSlash(stem, DOWN, d);
    ReplaceNoBrace(DOWN, d);
    TrimLeftOfReplace(stem + DOWN, d);
    EndsPlain(ReplaceAll(stem, d));
    TrimKeepsEnd(ReplaceAll(stem, d) + DOWN);
  }

  lemma TrimKeepsEnd(s: string)
    requires s != [] && !IsSlash(s[|s| - 1])
    ensures Trim(IsSlash, s) == TrimLeft(IsSlash, s)
  {
    TrimLeftIsSuffix(IsSlash, s);
  }

  lemma EndsPlain(base: string)
    ensures var s := base + DOWN; |s| >= 5 && !IsSlash(s[|s| - 1])
  {
  }

  lemma CommandPatternMentions(topic: string)
    requires Mentions(Pattern(topic))
    ensures Mentions(CommandPattern(topic))
  {
    var stem := Stem(topic);
    StemIsPattern(topic);
    NoBraceNoMention(UP);
    MentionsSplitsAtSlash(stem, UP);
    MentionsSplitsAtSlash(stem, DOWN);
    TrimLeftKeepsMention(stem + DOWN);
  }

  lemma DownHasNoWildcard(topic: string, d: string)
    requires PlainID(d) && !HasWildcard(d)
    ensures !HasWildcard(ResolveRouting(topic, d).down)
  {
    var r := ResolveRouting(topic, d);
    RouteShape(topic, d);
    TopicFromPattern(topic, d);
    SuffixedTemplate(TemplateOf(topic));
    LiteralsHaveNoWildcard();
    WildcardsAfterReplace(Pattern(topic), d);
    WildcardsOfConcat(Base(r), UP);
    WildcardsOfConcat(Base(r), DOWN);
  }

  /** No device may subscribe by name to another device's command topic. */
  lemma NamedSubscriptionIsolated(topic: string, d: string, d': string)
    requires PlainID(d) && PlainID(d') && !HasWildcard(d) && !HasWildcard(d')
    requires d != d' && |d| == |d'|
    requires Mentions(TemplateOf(topic)) || HasWildcard(TemplateOf(topic))
    ensures !AclAllows(ResolveRouting(topic, d), ResolveRouting(topic, d').down, false)
  {
    DownHasNoWildcard(topic, d');
    LiteralFilterIff(ResolveRouting(topic, d), ResolveRouting(topic, d').down);
    CommandTopicFromPattern(topic, d);
    CommandTopicFromPattern(topic, d');
    PatternMentions(topic);
    CommandPatternMentions(topic);
    ReplaceSameLength(CommandPattern(topic), d, d');
  }

  /** The check does not confine wildcard filters: "#" is granted to every bound client. */
  lemma HashIsGranted(route: Route)
    ensures AclAllows(route, "#", false)
  {
    var f := Trim(IsSlash, "#");
    TrimIsTrimmed(IsSlash, "#");
    assert Split("#") == ["#"] by { assert "#"[1..] == []; assert Split([]) == [""]; assert "#" == ['#'] + ""; }
  }
}
