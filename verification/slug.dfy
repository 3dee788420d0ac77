/** Tenant slugs: normalizeTenantSlug (internal/core/multitenant_ota.go). */
module Slug {
  import opened Text

  predicate Alnum(c: char) {
    'a' <= c <= 'z' || '0' <= c <= '9'
  }

  predicate IsDash(c: char) {
    c == '-'
  }

  const FALLBACK := "tenant"

  /** A slug in normal form: non-empty, only [a-z0-9-], no leading, trailing or doubled dash. */
  ghost predicate IsSlug(s: string) {
    && s != []
    && (forall c :: c in s ==> Alnum(c) || IsDash(c))
    && !IsDash(s[0]) && !IsDash(s[|s| - 1])
    && NoDoubleDash(s)
  }

  ghost predicate NoDoubleDash(s: string) {
    forall i :: 0 <= i < |s| - 1 ==> !(IsDash(s[i]) && IsDash(s[i + 1]))
  }

  /** Every maximal run of other code points becomes one dash; `lastDash` says one was just written. */
  function Dashed(raw: string, lastDash: bool): string {
    if raw == [] then []
    else if Alnum(raw[0]) then [raw[0]] + Dashed(raw[1..], false)
    else if lastDash then Dashed(raw[1..], true)
    else ['-'] + Dashed(raw[1..], true)
  }

  function SlugOf(slug: string, name: string): string {
    var first := TrimSpace(ToLower(slug));
    var raw := if first == "" then TrimSpace(ToLower(name)) else first;
    var trimmed := Trim(IsDash, Dashed(raw, false));
    if trimmed == "" then FALLBACK else trimmed
  }

  method NormalizeTenantSlug(slug: string, name: string) returns (result: string)
    ensures result == SlugOf(slug, name)
  {
    var raw := TrimSpace(ToLower(slug));
    if raw == "" {
      raw := TrimSpace(ToLower(name));
    }
    var builder := WriteDashed(raw);
    result := Trim(IsDash, builder);
    if result == "" {
      return FALLBACK;
    }
  }

  /** The loop of normalizeTenantSlug. */
  method WriteDashed(raw: string) returns (builder: string)
    ensures builder == Dashed(raw, false)
  {
    assert raw[0..] == raw;
    builder := "";
    var lastDash := false;
    for i := 0 to |raw|
      invariant builder + Dashed(raw[i..], lastDash) == Dashed(raw, false)
    {
      assert raw[i..][1..] == raw[i + 1..];
      if Alnum(raw[i]) {
        builder := builder + [raw[i]];
        lastDash := false;
      } else if !lastDash {
        builder := builder + ['-'];
        lastDash := true;
      }
    }
    assert raw[|raw|..] == [];
  }

  lemma {:induction false} DashedShape(raw: string, lastDash: bool)
    ensures var r := Dashed(raw, lastDash);
            && (forall c :: c in r ==> Alnum(c) || IsDash(c))
            && NoDoubleDash(r)
            && (lastDash && r != [] ==> !IsDash(r[0]))
  {
    if raw != [] {
      DashedShape(raw[1..], !Alnum(raw[0]));
    }
  }

  lemma {:induction false} DashedFixed(s: string, lastDash: bool)
    requires forall c :: c in s ==> Alnum(c) || IsDash(c)
    requires NoDoubleDash(s)
    requires lastDash && s != [] ==> !IsDash(s[0])
    ensures Dashed(s, lastDash) == s
  {
    if s != [] {
      DashedFixed(s[1..], IsDash(s[0]));
      assert s == [s[0]] + s[1..];
    }
  }

  lemma SlugCharsPlain(s: string)
    requires forall c :: c in s ==> Alnum(c) || IsDash(c)
    ensures ToLower(s) == s && TrimSpace(s) == s
  {
    TrimIsTrimmed(IsSpace, s);
    assert forall i :: 0 <= i < |s| ==> s[i] in s;
  }

  lemma InnerSlice(d: string, t: string)
    requires t == Trim(IsDash, d)
    requires (forall c :: c in d ==> Alnum(c) || IsDash(c)) && NoDoubleDash(d)
    ensures (forall c :: c in t ==> Alnum(c) || IsDash(c)) && NoDoubleDash(t)
  {
    TrimLeftIsSuffix(IsDash, d);
    var l := TrimLeft(IsDash, d);
    var k := |d| - |l|;
    assert forall i :: 0 <= i < |l| ==> l[i] == d[k + i];
    TrimRightIsPrefix(IsDash, l);
    assert forall i :: 0 <= i < |t| ==> t[i] == d[k + i];
  }

  /** Whatever the operator types, the stored slug is in normal form. */
  lemma SlugIsNormal(slug: string, name: string)
    ensures IsSlug(SlugOf(slug, name))
  {
    var first := TrimSpace(ToLower(slug));
    var raw := if first == "" then TrimSpace(ToLower(name)) else first;
    DashedShape(raw, false);
    var d := Dashed(raw, false);
    TrimIsTrimmed(IsDash, d);
    InnerSlice(d, Trim(IsDash, d));
  }

  /** The slugs normalisation leaves alone are exactly the ones in normal form, whatever the name. */
  lemma FixedIffNormal(s: string, name: string)
    ensures SlugOf(s, name) == s <==> IsSlug(s)
  {
    SlugIsNormal(s, name);
    if IsSlug(s) {
      SlugCharsPlain(s);
      DashedFixed(s, false);
      TrimIsTrimmed(IsDash, s);
    }
  }

  /** Normalising again changes nothing. */
  lemma SlugIdempotent(slug: string, name: string, otherName: string)
    ensures SlugOf(SlugOf(slug, name), otherName) == SlugOf(slug, name)
  {
    SlugIsNormal(slug, name);
    FixedIffNormal(SlugOf(slug, name), otherName);
  }
}
