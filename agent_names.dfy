/** Normalisation of backend ("agent") names before they are compared with the
    known backend constants: every `_` is removed, then every `-`, then the
    string is lowercased. Lowercasing is modelled on ASCII letters. */
module AgentNames {
  import opened Events

  predicate IsUpper(c: char) {
    'A' <= c <= 'Z'
  }

  function LowerChar(c: char): char {
    if IsUpper(c) then (c as int + 32) as char else c
  }

  predicate IsLowercase(s: string) {
    forall i :: 0 <= i < |s| ==> !IsUpper(s[i])
  }

  predicate IsSeparator(c: char) {
    c == '_' || c == '-'
  }

  /** `s.replacingOccurrences(of: c, with: "")`. */
  function Removing(s: string, c: char): (r: string)
    ensures c !in r
    ensures forall x :: x != c ==> (x in r <==> x in s)
  {
    if s == [] then [] else (if s[0] == c then [] else [s[0]]) + Removing(s[1..], c)
  }

  /** `s.lowercased()`, on ASCII letters. */
  function Lowercased(s: string): (r: string)
    ensures |r| == |s|
    ensures forall i :: 0 <= i < |s| ==> r[i] == LowerChar(s[i])
  {
    if s == [] then [] else [LowerChar(s[0])] + Lowercased(s[1..])
  }

  /** The chain of replacements applied to a present name. */
  function Cleaned(s: string): (r: string)
    ensures '_' !in r && '-' !in r
    ensures IsLowercase(r)
  {
    var u := Removing(Removing(s, '_'), '-');
    var r := Lowercased(u);
    assert forall i :: 0 <= i < |r| ==> r[i] != '_' && r[i] != '-' by {
      forall i | 0 <= i < |r| ensures r[i] != '_' && r[i] != '-' {
        assert u[i] in u;
      }
    }
    r
  }

  /** `hiphenRemovedLowercaseString`: a missing name stays missing. */
  function Normalize(name: Option<string>): (r: Option<string>)
    ensures r.None? <==> name.None?
    ensures r.Some? ==> '_' !in r.value && '-' !in r.value && IsLowercase(r.value)
  {
    match name
    case None => None
    case Some(s) => Some(Cleaned(s))
  }

  /** An independent, one-pass reading of the same normalisation: drop every
      separator and fold the case of every other character. */
  function Skeleton(s: string): string {
    if s == [] then [] else (if IsSeparator(s[0]) then [] else [LowerChar(s[0])]) + Skeleton(s[1..])
  }

  lemma {:induction false} RemovingAppend(a: string, b: string, c: char)
    ensures Removing(a + b, c) == Removing(a, c) + Removing(b, c)
  {
    if a == [] {
      assert a + b == b;
    } else {
      assert (a + b)[0] == a[0];
      assert (a + b)[1..] == a[1..] + b;
      RemovingAppend(a[1..], b, c);
    }
  }

  /** Removing keeps every other occurrence: only the removed character's count drops, to zero. */
  lemma {:induction false} RemovingMultiset(s: string, c: char)
    ensures multiset(Removing(s, c)) == multiset(s)[c := 0]
  {
    if s != [] {
      assert s == [s[0]] + s[1..];
      RemovingMultiset(s[1..], c);
    }
  }

  lemma {:induction false} LowercasedAppend(a: string, b: string)
    ensures Lowercased(a + b) == Lowercased(a) + Lowercased(b)
  {
    if a == [] {
      assert a + b == b;
    } else {
      assert (a + b)[0] == a[0];
      assert (a + b)[1..] == a[1..] + b;
      LowercasedAppend(a[1..], b);
    }
  }

  lemma {:induction false} SkeletonAppend(a: string, b: string)
    ensures Skeleton(a + b) == Skeleton(a) + Skeleton(b)
  {
    if a == [] {
      assert a + b == b;
    } else {
      assert (a + b)[0] == a[0];
      assert (a + b)[1..] == a[1..] + b;
      SkeletonAppend(a[1..], b);
    }
  }

  /** The two-pass replacement chain and the one-pass reading agree on every string. */
  lemma {:induction false} CleanedIsSkeleton(s: string)
    ensures Cleaned(s) == Skeleton(s)
  {
    if s != [] {
      var h, t := s[..1], s[1..];
      assert s == h + t;
      RemovingAppend(h, t, '_');
      RemovingAppend(Removing(h, '_'), Removing(t, '_'), '-');
      LowercasedAppend(Removing(Removing(h, '_'), '-'), Removing(Removing(t, '_'), '-'));
      SkeletonAppend(h, t);
      assert h[1..] == [];
      CleanedIsSkeleton(t);
    }
  }

  lemma {:induction false} RemovingAbsent(s: string, c: char)
    requires c !in s
    ensures Removing(s, c) == s
  {
    if s != [] {
      assert s[0] != c;
      assert forall x :: x in s[1..] ==> x in s;
      RemovingAbsent(s[1..], c);
    }
  }

  /** Normalising twice gives what normalising once gives. */
  lemma NormalizeIdempotent(name: Option<string>)
    ensures Normalize(Normalize(name)) == Normalize(name)
  {
    if name.Some? {
      var t := Cleaned(name.value);
      RemovingAbsent(t, '_');
      RemovingAbsent(t, '-');
      assert Lowercased(t) == t;
    }
  }

  /** Two present names normalise equally exactly when their one-pass
      skeletons agree. */
  lemma NormalizeEqualIff(a: string, b: string)
    ensures Normalize(Some(a)) == Normalize(Some(b)) <==> Skeleton(a) == Skeleton(b)
  {
    CleanedIsSkeleton(a);
    CleanedIsSkeleton(b);
  }

  /** Inserting a `_` or a `-` anywhere does not change the normalised name. */
  lemma SeparatorInsensitive(a: string, b: string, c: char)
    requires IsSeparator(c)
    ensures Normalize(Some(a + [c] + b)) == Normalize(Some(a + b))
  {
    assert Skeleton([c]) == [] by {
      assert [c][1..] == [];
    }
    calc {
      Skeleton(a + [c] + b);
      { SkeletonAppend(a + [c], b); }
      Skeleton(a + [c]) + Skeleton(b);
      { SkeletonAppend(a, [c]); }
      Skeleton(a) + Skeleton(b);
      { SkeletonAppend(a, b); }
      Skeleton(a + b);
    }
    NormalizeEqualIff(a + [c] + b, a + b);
  }

  lemma {:induction false} SkeletonCaseFold(a: string, b: string)
    requires |a| == |b|
    requires forall i :: 0 <= i < |a| ==> LowerChar(a[i]) == LowerChar(b[i])
    ensures Skeleton(a) == Skeleton(b)
  {
    if a != [] {
      assert LowerChar(a[0]) == LowerChar(b[0]);
      assert IsSeparator(a[0]) <==> IsSeparator(b[0]);
      SkeletonCaseFold(a[1..], b[1..]);
    }
  }

  /** Names of the same length whose letters differ only in case normalise equally. */
  lemma CaseInsensitive(a: string, b: string)
    requires |a| == |b|
    requires forall i :: 0 <= i < |a| ==> LowerChar(a[i]) == LowerChar(b[i])
    ensures Normalize(Some(a)) == Normalize(Some(b))
  {
    SkeletonCaseFold(a, b);
    NormalizeEqualIff(a, b);
  }

  /** A name that is already lowercase and has no separator is its own normal form. */
  lemma NormalFormIsFixed(s: string)
    requires '_' !in s && '-' !in s && IsLowercase(s)
    ensures Normalize(Some(s)) == Some(s)
  {
    RemovingAbsent(s, '_');
    RemovingAbsent(s, '-');
    assert Lowercased(s) == s;
  }

  const GOOGLE_ANALYTICS_FORM: string := "googleanalytics"

  lemma UnderscoreSpelling()
    ensures Normalize(Some("google_analytics")) == Normalize(Some(GOOGLE_ANALYTICS_FORM))
  {
    SeparatorInsensitive("google", "analytics", '_');
    assert "google" + ['_'] + "analytics" == "google_analytics";
    assert "google" + "analytics" == GOOGLE_ANALYTICS_FORM;
  }

  lemma HyphenSpelling()
    ensures Normalize(Some("Google-Analytics")) == Normalize(Some("GoogleAnalytics"))
  {
    SeparatorInsensitive("Google", "Analytics", '-');
    assert "Google" + ['-'] + "Analytics" == "Google-Analytics";
    assert "Google" + "Analytics" == "GoogleAnalytics";
  }

  lemma CamelSpelling()
    ensures Normalize(Some("GoogleAnalytics")) == Normalize(Some(GOOGLE_ANALYTICS_FORM))
  {
    var camel := "GoogleAnalytics";
    assert forall i :: 0 <= i < |GOOGLE_ANALYTICS_FORM| ==>
      LowerChar(camel[i]) == LowerChar(GOOGLE_ANALYTICS_FORM[i]);
    CaseInsensitive(camel, GOOGLE_ANALYTICS_FORM);
  }

  /** The three usual spellings of the Google Analytics backend name share one normal form. */
  lemma GoogleAnalyticsSpellings()
    ensures Normalize(Some("Google-Analytics")) == Some(GOOGLE_ANALYTICS_FORM)
    ensures Normalize(Some("google_analytics")) == Some(GOOGLE_ANALYTICS_FORM)
    ensures Normalize(Some("GoogleAnalytics")) == Some(GOOGLE_ANALYTICS_FORM)
  {
    NormalFormIsFixed(GOOGLE_ANALYTICS_FORM);
    UnderscoreSpelling();
    HyphenSpelling();
    CamelSpelling();
  }
}
