/** The input validator `domainPattern` of script.js, written as a hand-made
    recogniser instead of a regular expression:

      optional `http://` or `https://` (lower case),
      then `localhost`, a dotted quad of 1-3 digit groups, or one or more
      `[A-Za-z0-9-]+.` labels followed by an alphabetic label of 2+ letters,
      then optionally `:` and 1-5 digits,
      then optionally a tail that starts with `/`, `?` or `#` and holds no
      line terminator (the regular expression's `.` does not match those).

    `InLanguage` states the accepted set as the regular expression does, as a
    concatenation of four parts; `Matches` decides it by scanning, and
    `MatchesIsLanguage` proves the two agree. */
module Pattern {
  import opened Text

  predicate IsHostChar(c: char) { IsAlnum(c) || c == '-' || c == '.' }
  predicate IsLabelChar(c: char) { IsAlnum(c) || c == '-' }
  predicate AllLabelChars(s: string) { forall i :: 0 <= i < |s| ==> IsLabelChar(s[i]) }

  /** `([a-zA-Z0-9-]+\.)+[a-zA-Z]{2,}`: at least two dot-separated pieces, every
      piece but the last a non-empty run of label characters, the last two or
      more letters. */
  predicate IsDomainName(h: string) {
    var parts := Split(h, '.');
    |parts| >= 2
    && (forall k :: 0 <= k < |parts| - 1 ==> parts[k] != [] && AllLabelChars(parts[k]))
    && |parts[|parts| - 1]| >= 2 && AllAlpha(parts[|parts| - 1])
  }

  predicate IsDigitGroup(g: string) { 1 <= |g| <= 3 && AllDigits(g) }

  /** `\d{1,3}(\.\d{1,3}){3}`, and also `^(\d{1,3}\.){3}\d{1,3}$`, the raw-IP
      test of the scorer: exactly four dot-separated groups of 1-3 digits. */
  predicate IsDottedQuad(h: string) {
    var parts := Split(h, '.');
    |parts| == 4 && forall k :: 0 <= k < 4 ==> IsDigitGroup(parts[k])
  }

  predicate IsHost(h: string) { h == "localhost" || IsDomainName(h) || IsDottedQuad(h) }

  predicate IsScheme(s: string) { s == "" || s == "http://" || s == "https://" }

  predicate IsPort(p: string) { p == "" || (p[0] == ':' && 2 <= |p| <= 6 && AllDigits(p[1..])) }

  predicate IsTailStart(c: char) { c == '/' || c == '?' || c == '#' }

  predicate IsTail(t: string) {
    t == "" || (IsTailStart(t[0]) && forall i :: 1 <= i < |t| ==> !IsLineTerminator(t[i]))
  }

  /** The accepted set, part by part, as the regular expression describes it. */
  ghost predicate PortTailLanguage(u: string) {
    exists k: nat | k <= |u| :: IsPort(u[..k]) && IsTail(u[k..])
  }

  ghost predicate AuthorityLanguage(t: string) {
    exists j: nat | j <= |t| :: IsHost(t[..j]) && PortTailLanguage(t[j..])
  }

  ghost predicate InLanguage(s: string) {
    exists i: nat | i <= |s| :: IsScheme(s[..i]) && AuthorityLanguage(s[i..])
  }

  /** Length of the longest prefix of host characters. */
  function HostSpan(t: string): (n: nat)
    ensures n <= |t|
    ensures forall i :: 0 <= i < n ==> IsHostChar(t[i])
    ensures n < |t| ==> !IsHostChar(t[n])
  {
    if t != [] && IsHostChar(t[0]) then 1 + HostSpan(t[1..]) else 0
  }

  /** Length of the longest prefix of digits. */
  function DigitSpan(t: string): (n: nat)
    ensures n <= |t|
    ensures AllDigits(t[..n])
    ensures n < |t| ==> !IsDigit(t[n])
  {
    if t != [] && IsDigit(t[0]) then 1 + DigitSpan(t[1..]) else 0
  }

  /** Length of the scheme prefix, 0 when there is none. */
  function SchemeLength(s: string): (n: nat)
    ensures n <= |s| && IsScheme(s[..n])
  {
    if StartsWith(s, "https://") then 8 else if StartsWith(s, "http://") then 7 else 0
  }

  predicate MatchesPortAndTail(u: string) {
    if u != [] && u[0] == ':' then
      var d := DigitSpan(u[1..]);
      1 <= d <= 5 && IsTail(u[1 + d..])
    else
      IsTail(u)
  }

  predicate MatchesAuthority(t: string) {
    var n := HostSpan(t);
    IsHost(t[..n]) && MatchesPortAndTail(t[n..])
  }

  /** `domainPattern.test(s)`. */
  predicate Matches(s: string) {
    MatchesAuthority(s[SchemeLength(s)..])
  }

  lemma DigitInPrefix(t: string, a: nat, b: nat)
    ensures a < b <= |t| && AllDigits(t[..b]) ==> IsDigit(t[a])
  {
    if a < b <= |t| && AllDigits(t[..b]) {
      assert t[..b][a] == t[a];
    }
  }

  /** A prefix of digits followed by a non-digit (or the end) is the digit span. */
  lemma DigitSpanIsUnique(t: string, m: nat)
    requires m <= |t| && AllDigits(t[..m]) && (m < |t| ==> !IsDigit(t[m]))
    ensures DigitSpan(t) == m
  {
    DigitInPrefix(t, m, DigitSpan(t));
    DigitInPrefix(t, DigitSpan(t), m);
  }

  lemma PortTailAgrees(u: string)
    ensures MatchesPortAndTail(u) <==> PortTailLanguage(u)
  {
    if MatchesPortAndTail(u) {
      if u != [] && u[0] == ':' {
        var d := DigitSpan(u[1..]);
        assert u[..1 + d][1..] == u[1..][..d];
        assert IsPort(u[..1 + d]) && IsTail(u[1 + d..]);
      } else {
        assert IsPort(u[..0]) && IsTail(u[0..]);
      }
    }
    if PortTailLanguage(u) {
      var k: nat :| k <= |u| && IsPort(u[..k]) && IsTail(u[k..]);
      if k > 0 {
        assert u[0] == u[..k][0] == ':';
        assert AllDigits(u[1..][..k - 1]) by { assert u[1..][..k - 1] == u[..k][1..]; }
        assert k < |u| ==> !IsDigit(u[1..][k - 1]) by { assert k < |u| ==> u[1..][k - 1] == u[k..][0]; }
        DigitSpanIsUnique(u[1..], k - 1);
      }
    }
  }

  lemma {:induction false} PartCharsAreHostChars(h: string)
    requires forall k :: 0 <= k < |Split(h, '.')| ==> AllLabelChars(Split(h, '.')[k])
    ensures forall i :: 0 <= i < |h| ==> IsHostChar(h[i])
  {
    if h != [] {
      var parts := Split(h, '.');
      var rest := Split(h[1..], '.');
      if h[0] == '.' {
        assert parts == [""] + rest;
        forall k | 0 <= k < |rest| ensures AllLabelChars(rest[k]) {
          assert rest[k] == parts[k + 1];
        }
      } else {
        assert parts == [[h[0]] + rest[0]] + rest[1..];
        assert AllLabelChars(parts[0]);
        assert IsLabelChar(parts[0][0]);
        forall k | 0 <= k < |rest| ensures AllLabelChars(rest[k]) {
          if k == 0 {
            forall i | 0 <= i < |rest[0]| ensures IsLabelChar(rest[0][i]) {
              assert rest[0][i] == parts[0][i + 1];
            }
          } else {
            assert rest[k] == parts[k];
          }
        }
      }
      PartCharsAreHostChars(h[1..]);
      forall i | 0 <= i < |h| ensures IsHostChar(h[i]) {
        if i > 0 { assert h[i] == h[1..][i - 1]; }
      }
    }
  }

  lemma {:induction false} CountedCharOccurs(s: string, c: char)
    requires CountChar(s, c) > 0
    ensures c in s
  {
    if s[0] != c {
      CountedCharOccurs(s[1..], c);
    }
  }

  /** Every host the pattern accepts is made of host characters and, unless it
      is `localhost`, holds a dot. */
  lemma HostShape(h: string)
    requires IsHost(h)
    ensures forall i :: 0 <= i < |h| ==> IsHostChar(h[i])
    ensures h != "localhost" ==> '.' in h
  {
    var parts := Split(h, '.');
    if h != "localhost" {
      CountedCharOccurs(h, '.');
      assert forall k :: 0 <= k < |parts| ==> AllLabelChars(parts[k]);
      PartCharsAreHostChars(h);
    }
  }

  lemma AuthorityAgrees(t: string)
    ensures MatchesAuthority(t) <==> AuthorityLanguage(t)
  {
    if MatchesAuthority(t) {
      var n := HostSpan(t);
      PortTailAgrees(t[n..]);
      assert IsHost(t[..n]) && PortTailLanguage(t[n..]);
    }
    if AuthorityLanguage(t) {
      var j: nat :| j <= |t| && IsHost(t[..j]) && PortTailLanguage(t[j..]);
      LanguageHostIsSpan(t, j);
      PortTailAgrees(t[j..]);
    }
  }

  /** The host part of an accepted authority is the longest run of host characters. */
  lemma LanguageHostIsSpan(t: string, j: nat)
    requires j <= |t| && IsHost(t[..j]) && PortTailLanguage(t[j..])
    ensures HostSpan(t) == j
  {
    HostShape(t[..j]);
    assert forall i :: 0 <= i < j ==> t[i] == t[..j][i];
    if j < |t| {
      PortTailStart(t[j..]);
      assert t[j] == t[j..][0];
    }
    SpanIsUnique(t, j);
  }

  lemma SpanIsUnique(t: string, j: nat)
    requires j <= |t|
    requires forall i :: 0 <= i < j ==> IsHostChar(t[i])
    requires j < |t| ==> !IsHostChar(t[j])
    ensures HostSpan(t) == j
  {
  }

  /** What follows the host starts with `:`, `/`, `?` or `#`, none of them a host character. */
  lemma PortTailStart(u: string)
    requires PortTailLanguage(u) && u != []
    ensures !IsHostChar(u[0])
  {
    var k: nat :| k <= |u| && IsPort(u[..k]) && IsTail(u[k..]);
    if k > 0 {
      assert u[0] == u[..k][0];
    } else {
      assert u[0] == u[k..][0];
    }
  }

  /** A string that starts with a scheme cannot also match without one: the
      host would be `http` or `https`, which is none of the three host forms. */
  lemma {:induction false} SchemeNotAHost(s: string, k: nat)
    requires k == 4 || k == 5
    requires k < |s| && s[k] == ':'
    requires forall i :: 0 <= i < k ==> IsAlpha(s[i])
    ensures !MatchesAuthority(s)
  {
    assert HostSpan(s) == k;
    var h := s[..k];
    assert '.' !in h;
    if IsHost(h) {
      HostShape(h);
    }
  }

  /** The recogniser accepts exactly the strings of the pattern's language. */
  lemma MatchesIsLanguage(s: string)
    ensures Matches(s) <==> InLanguage(s)
  {
    var n := SchemeLength(s);
    if Matches(s) {
      AuthorityAgrees(s[n..]);
      assert IsScheme(s[..n]) && AuthorityLanguage(s[n..]);
    }
    if InLanguage(s) {
      var i: nat :| i <= |s| && IsScheme(s[..i]) && AuthorityLanguage(s[i..]);
      AuthorityAgrees(s[i..]);
      OnlyOneScheme(s, i);
    }
  }

  /** Whichever scheme split the language uses, it is the one the recogniser takes. */
  lemma OnlyOneScheme(s: string, i: nat)
    requires i <= |s| && IsScheme(s[..i]) && MatchesAuthority(s[i..])
    ensures i == SchemeLength(s)
  {
    if i == 0 {
      assert s[i..] == s;
      if SchemeLength(s) > 0 {
        SchemeBlocksBareHost(s);
      }
    } else {
      SchemePrefixIsSchemeLength(s, i);
    }
  }

  lemma SchemePrefixIsSchemeLength(s: string, i: nat)
    requires 0 < i <= |s| && IsScheme(s[..i])
    ensures i == SchemeLength(s)
  {
    assert s[..i][4] == s[4];
    if i == 8 {
      assert StartsWith(s, "https://");
    } else {
      assert s[..i] == "http://";
      assert StartsWith(s, "http://");
    }
  }

  lemma SchemeBlocksBareHost(s: string)
    requires SchemeLength(s) > 0
    ensures !MatchesAuthority(s)
  {
    if SchemeLength(s) == 8 {
      assert s[..8] == "https://";
      assert forall i :: 0 <= i < 5 ==> s[i] == s[..8][i];
      SchemeNotAHost(s, 5);
    } else {
      assert s[..7] == "http://";
      assert forall i :: 0 <= i < 4 ==> s[i] == s[..7][i];
      SchemeNotAHost(s, 4);
    }
  }

  /** A scheme written in any letter case, at the start of a string, leaves a
      non-host in front of the colon. */
  lemma AnyCaseSchemeNotAHost(s: string, scheme: string)
    requires scheme == "https://" || scheme == "http://"
    requires StartsWithIgnoringCase(s, scheme)
    ensures !MatchesAuthority(s)
  {
    var k := |scheme| - 3;
    var l := Lower(s[..|scheme|]);
    assert l == Lower(scheme);
    forall i | 0 <= i < k ensures IsAlpha(s[i]) {
      assert LowerChar(s[i]) == l[i] == scheme[i];
    }
    assert LowerChar(s[k]) == l[k] == ':';
    SchemeNotAHost(s, k);
  }

  /** The analyzer's scheme test `/^https?:\/\//i` ignores case, the pattern
      does not; on accepted input they agree, because a scheme written in
      other letter cases leaves `http` or `https` as the host. */
  lemma SchemeTestAgrees(s: string)
    requires Matches(s)
    ensures StartsWithIgnoringCase(s, "http://") || StartsWithIgnoringCase(s, "https://")
            <==> SchemeLength(s) > 0
  {
    var n := SchemeLength(s);
    if n == 0 {
      assert s[0..] == s;
      if StartsWithIgnoringCase(s, "https://") {
        AnyCaseSchemeNotAHost(s, "https://");
      } else if StartsWithIgnoringCase(s, "http://") {
        AnyCaseSchemeNotAHost(s, "http://");
      }
    } else if n == 8 {
      assert s[..8] == "https://";
    } else {
      assert s[..7] == "http://";
    }
  }

}
