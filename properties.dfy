/** What `analyzeUrl` promises, stated about `Assess` and `Verdict` for any
    configuration tables, and a few facts about the tables the program ships. */
module Properties {
  import opened Text
  import opened Pattern
  import opened UrlParse
  import opened Tables
  import opened Classifier
  import opened Analyzer

  // ---------------------------------------------------------------------
  // The rule list
  // ---------------------------------------------------------------------

  /** A rule that pushes a reason sits at that reason's position `i` in the rule order. */
  predicate RankedAt(r: Rule, i: nat) {
    r.reason.Some? ==> Rank(r.reason.value) == i
  }

  predicate Ranked(rs: seq<Rule>) {
    forall i :: 0 <= i < |rs| ==> RankedAt(rs[i], i)
  }

  /** Each rule pushes only its own reason. */
  lemma RuleRanks(cfg: Config, p: UrlParts, host: string)
    ensures RankedAt(HttpsRule(p.protocol), 0) && RankedAt(LengthRule(|p.href|), 1)
            && RankedAt(RawIpRule(host), 2) && RankedAt(SubdomainRule(host), 3)
            && RankedAt(AtRule(p.href), 4) && RankedAt(HyphenRule(host), 5)
            && RankedAt(TldRule(host, cfg.suspiciousTlds), 6)
            && RankedAt(BrandRule(host, cfg.brands), 8)
  {
  }

  /** The nine rules are in source order and the keyword bonus (position 7) pushes nothing. */
  lemma RulesRanked(cfg: Config, p: UrlParts, host: string)
    ensures var rs := Rules(cfg, p, host);
            |rs| == 9 && Ranked(rs) && rs[7].reason.None?
  {
    RuleRanks(cfg, p, host);
  }

  /** Every rule but the keyword bonus pushes its reason exactly when it adds weight. */
  lemma RulesSpeak(cfg: Config, p: UrlParts, host: string)
    ensures var rs := Rules(cfg, p, host);
            |rs| == 9 && forall i :: 0 <= i < 9 && i != 7 ==> (rs[i].reason.Some? <==> rs[i].weight > 0)
  {
    var rs := Rules(cfg, p, host);
    assert rs[1] == LengthRule(|p.href|);
  }

  /** A reason is emitted by the first `k` rules exactly when one of them pushes it. */
  lemma {:induction false} EmittedMembers(rs: seq<Rule>, k: nat)
    requires k <= |rs|
    ensures forall r :: r in Emitted(rs, k) <==> exists i :: 0 <= i < k && rs[i].reason == Some(r)
  {
    if k > 0 {
      EmittedMembers(rs, k - 1);
    }
  }

  /** Ranked rules emit their reasons in strictly increasing rank, each below `k`. */
  lemma {:induction false} EmittedInRankOrder(rs: seq<Rule>, k: nat)
    requires k <= |rs| && Ranked(rs)
    ensures forall i :: 0 <= i < |Emitted(rs, k)| ==> Rank(Emitted(rs, k)[i]) < k
    ensures forall i, j :: 0 <= i < j < |Emitted(rs, k)| ==> Rank(Emitted(rs, k)[i]) < Rank(Emitted(rs, k)[j])
  {
    if k > 0 {
      EmittedInRankOrder(rs, k - 1);
    }
  }

  /** No reason is emitted exactly when no rule pushes one. */
  lemma {:induction false} EmittedEmpty(rs: seq<Rule>, k: nat)
    requires k <= |rs|
    ensures |Emitted(rs, k)| == 0 <==> forall i :: 0 <= i < k ==> rs[i].reason.None?
  {
    if k > 0 {
      EmittedEmpty(rs, k - 1);
      assert |Emitted(rs, k)| == |Emitted(rs, k - 1)| + |Pushed(rs[k - 1])|;
    }
  }

  /** The total is zero exactly when every rule weighs nothing. */
  lemma {:induction false} TotalZero(rs: seq<Rule>, k: nat)
    requires k <= |rs|
    ensures Total(rs, k) == 0 <==> forall i :: 0 <= i < k ==> rs[i].weight == 0
  {
    if k > 0 {
      TotalZero(rs, k - 1);
    }
  }

  // ---------------------------------------------------------------------
  // The verdict on a URL that passed the trust check
  // ---------------------------------------------------------------------

  /** The reasons come out in the order the rules are written, each at most
      once, and the fallback reason, when present, comes last. */
  lemma ReasonsInRuleOrder(cfg: Config, p: UrlParts, host: string)
    ensures var a := Verdict(cfg, p, host);
            forall i, j :: 0 <= i < j < |a.reasons| ==> Rank(a.reasons[i]) < Rank(a.reasons[j])
  {
    var rs := Rules(cfg, p, host);
    RulesRanked(cfg, p, host);
    EmittedInRankOrder(rs, 9);
  }

  /** The score is between 0 and 10, and the fallback reason is reported exactly when it is 0. */
  lemma VerdictScore(cfg: Config, p: UrlParts, host: string)
    ensures var a := Verdict(cfg, p, host);
            0 <= a.score <= 10
            && (NoStrongIndicators in a.reasons <==> a.score == 0)
            && InvalidInput !in a.reasons && LocalDevelopment !in a.reasons && TrustedDomain !in a.reasons
  {
    var rs := Rules(cfg, p, host);
    RulesRanked(cfg, p, host);
    EmittedInRankOrder(rs, 9);
    assert forall r :: r in Emitted(rs, 9) ==> Rank(r) < 9;
  }

  /** With ranked rules, a reason is emitted exactly when the rule at its rank pushes it. */
  lemma {:induction false} RankedMember(rs: seq<Rule>, k: nat, r: Reason)
    requires k <= |rs| && Ranked(rs)
    ensures r in Emitted(rs, k) <==> Rank(r) < k && rs[Rank(r)].reason == Some(r)
  {
    if k > 0 {
      RankedMember(rs, k - 1, r);
      assert RankedAt(rs[k - 1], k - 1);
    }
  }

  /** A reason other than the fallback is in the verdict exactly when the rule at its rank pushes it. */
  lemma VerdictMember(cfg: Config, p: UrlParts, host: string, r: Reason)
    requires r != NoStrongIndicators
    ensures var rs := Rules(cfg, p, host);
            r in Verdict(cfg, p, host).reasons <==> Rank(r) < 9 && rs[Rank(r)].reason == Some(r)
  {
    RulesRanked(cfg, p, host);
    RankedMember(Rules(cfg, p, host), 9, r);
  }

  lemma NotHttpsReason(cfg: Config, p: UrlParts, host: string)
    ensures NotHttps in Verdict(cfg, p, host).reasons <==> p.protocol != "https:"
  {
    VerdictMember(cfg, p, host, NotHttps);
  }

  lemma LengthReason(cfg: Config, p: UrlParts, host: string)
    ensures UnusuallyLong in Verdict(cfg, p, host).reasons <==> |p.href| > 90
  {
    VerdictMember(cfg, p, host, UnusuallyLong);
  }

  lemma AtReason(cfg: Config, p: UrlParts, host: string)
    ensures HasAtSign in Verdict(cfg, p, host).reasons <==> Contains(p.href, "@")
  {
    VerdictMember(cfg, p, host, HasAtSign);
  }

  /** The URL-wide reasons name exactly the conditions of their rules. */
  lemma UrlReasons(cfg: Config, p: UrlParts, host: string)
    ensures var a := Verdict(cfg, p, host);
            (NotHttps in a.reasons <==> p.protocol != "https:")
            && (UnusuallyLong in a.reasons <==> |p.href| > 90)
            && (HasAtSign in a.reasons <==> Contains(p.href, "@"))
  {
    NotHttpsReason(cfg, p, host);
    LengthReason(cfg, p, host);
    AtReason(cfg, p, host);
  }

  lemma RawIpReason(cfg: Config, p: UrlParts, host: string)
    ensures RawIpAddress in Verdict(cfg, p, host).reasons <==> IsDottedQuad(host)
  {
    VerdictMember(cfg, p, host, RawIpAddress);
  }

  lemma SubdomainReason(cfg: Config, p: UrlParts, host: string)
    ensures ManySubdomains in Verdict(cfg, p, host).reasons <==> CountChar(host, '.') >= 3
  {
    VerdictMember(cfg, p, host, ManySubdomains);
    assert Rules(cfg, p, host)[3] == SubdomainRule(host);
    assert |Split(host, '.')| == CountChar(host, '.') + 1;
  }

  lemma HyphenReason(cfg: Config, p: UrlParts, host: string)
    ensures MultipleHyphens in Verdict(cfg, p, host).reasons <==> CountChar(host, '-') >= 2
  {
    VerdictMember(cfg, p, host, MultipleHyphens);
  }

  lemma BrandReason(cfg: Config, p: UrlParts, host: string)
    ensures BrandImitation in Verdict(cfg, p, host).reasons <==> ImitatesBrand(host, cfg.brands)
  {
    VerdictMember(cfg, p, host, BrandImitation);
  }

  /** The host reasons name exactly the conditions of their rules: a dotted
      quad, at least three dots, at least two hyphens, and a brand the host
      ends with without being it. */
  lemma HostReasons(cfg: Config, p: UrlParts, host: string)
    ensures var a := Verdict(cfg, p, host);
            (RawIpAddress in a.reasons <==> IsDottedQuad(host))
            && (ManySubdomains in a.reasons <==> CountChar(host, '.') >= 3)
            && (MultipleHyphens in a.reasons <==> CountChar(host, '-') >= 2)
            && (BrandImitation in a.reasons <==> ImitatesBrand(host, cfg.brands))
  {
    RawIpReason(cfg, p, host);
    SubdomainReason(cfg, p, host);
    HyphenReason(cfg, p, host);
    BrandReason(cfg, p, host);
  }

  /** The suspicious-TLD reason names the matched suffix, and appears exactly when that suffix is listed. */
  lemma TldReason(cfg: Config, p: UrlParts, host: string, t: string)
    ensures SuspiciousTld(t) in Verdict(cfg, p, host).reasons
            <==> IsTldMatch(host, t) && t in cfg.suspiciousTlds
  {
    VerdictMember(cfg, p, host, SuspiciousTld(t));
    TldOfIsTheMatch(host, t);
  }

  /** The keyword bonus is the one rule that adds to the score without a
      reason: the list is empty exactly when some keyword occurs and the bonus
      is the whole score, which is then 2 or 4. */
  lemma KeywordOnly(cfg: Config, p: UrlParts, host: string)
    ensures var a := Verdict(cfg, p, host);
            var hits := CountHits(cfg.keywords, KeywordText(host, p));
            (a.reasons == [] <==> hits > 0 && a.score == KeywordRule(hits).weight)
            && (a.reasons == [] ==> a.score == 2 || a.score == 4)
  {
    var rs := Rules(cfg, p, host);
    RulesSpeak(cfg, p, host);
    NineRules(rs);
    EmittedEmpty(rs, 9);
  }

  // ---------------------------------------------------------------------
  // The outcome of `analyzeUrl`
  // ---------------------------------------------------------------------

  /** A parsed URL scores between 0 and 10, never with the invalid-input
      reason; a short-circuit reason comes alone, with score 0. */
  lemma ExamineScore(cfg: Config, p: UrlParts)
    ensures var a := Examine(cfg, p);
            0 <= a.score <= 10 && InvalidInput !in a.reasons && ShortCircuitIsAlone(a)
  {
    var host := Lower(p.hostname);
    if !IsLoopback(host) && !IsTrusted(host, cfg.trusted) {
      VerdictScore(cfg, p, host);
    }
  }

  /** Loopback is checked first and trust second, before any rule: the
      local-development reason appears exactly for a loopback host, the
      trusted-domain reason exactly for a trusted host that is not loopback. */
  lemma ShortCircuit(cfg: Config, p: UrlParts)
    ensures var host := Lower(p.hostname);
            var a := Examine(cfg, p);
            a.normalizedUrl == p.href
            && (LocalDevelopment in a.reasons <==> IsLoopback(host))
            && (TrustedDomain in a.reasons <==> !IsLoopback(host) && IsTrusted(host, cfg.trusted))
  {
    var host := Lower(p.hostname);
    if !IsLoopback(host) && !IsTrusted(host, cfg.trusted) {
      VerdictScore(cfg, p, host);
    }
  }

  /** An input the pattern rejects gets score -1, the one invalid-input reason and the trimmed input back. */
  lemma InvalidOutcome(cfg: Config, raw: string)
    requires !Matches(Trim(raw))
    ensures Assess(cfg, raw) == Returned(Analysis(-1, [InvalidInput], Trim(raw)))
  {
  }

  /** What `analyzeUrl` returns is either the invalid-input result of a
      rejected input, or the outcome of the parsed URL of an accepted one. */
  lemma ReturnedCases(cfg: Config, raw: string) returns (parsed: Option<UrlParts>)
    requires Assess(cfg, raw).Returned?
    ensures parsed.None? ==> !Matches(Trim(raw))
                             && Assess(cfg, raw).analysis == Analysis(-1, [InvalidInput], Trim(raw))
    ensures parsed.Some? ==> Matches(Trim(raw)) && Parsed(Trim(raw)) == parsed
                             && Assess(cfg, raw).analysis == Examine(cfg, parsed.value)
  {
    if Matches(Trim(raw)) {
      parsed := Parsed(Trim(raw));
    } else {
      parsed := None;
    }
  }

  /** Whatever `analyzeUrl` returns scores between -1 and 10, and -1 is
      given exactly to inputs the pattern rejects, with the invalid-input reason alone. */
  lemma ReturnedOutcome(cfg: Config, raw: string)
    requires Assess(cfg, raw).Returned?
    ensures var a := Assess(cfg, raw).analysis;
            -1 <= a.score <= 10
            && (a.score == -1 <==> !Matches(Trim(raw)))
            && (a.score == -1 <==> a.reasons == [InvalidInput])
  {
    var parsed := ReturnedCases(cfg, raw);
    if parsed.Some? {
      ExamineScore(cfg, parsed.value);
    }
  }

  /** A short-circuit reason comes alone, with score 0. */
  predicate ShortCircuitIsAlone(a: Analysis) {
    LocalDevelopment in a.reasons || TrustedDomain in a.reasons ==> a.score == 0 && |a.reasons| == 1
  }

  /** In whatever `analyzeUrl` returns, a short-circuit reason comes alone, with score 0. */
  lemma ShortCircuitAlone(cfg: Config, raw: string)
    requires Assess(cfg, raw).Returned?
    ensures ShortCircuitIsAlone(Assess(cfg, raw).analysis)
  {
    var parsed := ReturnedCases(cfg, raw);
    if parsed.Some? {
      ExamineScore(cfg, parsed.value);
    }
  }

  /** A dotted-quad host fires both the raw-IP and the subdomain rule, so it scores at least 8, and 10 without HTTPS. */
  lemma RawIpVerdict(cfg: Config, p: UrlParts, host: string)
    requires IsDottedQuad(host)
    ensures var a := Verdict(cfg, p, host);
            ManySubdomains in a.reasons && a.score >= 8
            && (p.protocol != "https:" ==> a.score == 10)
  {
    RawIpReason(cfg, p, host);
    SubdomainReason(cfg, p, host);
    NineRules(Rules(cfg, p, host));
  }

  /** The raw-IP reason always comes with the subdomain reason and a score of at least 8, and of 10 without HTTPS. */
  lemma RawIpExamined(cfg: Config, p: UrlParts)
    requires RawIpAddress in Examine(cfg, p).reasons
    ensures var a := Examine(cfg, p);
            ManySubdomains in a.reasons && a.score >= 8
            && (NotHttps in a.reasons ==> a.score == 10)
  {
    var host := Lower(p.hostname);
    if !IsLoopback(host) && !IsTrusted(host, cfg.trusted) {
      RawIpReason(cfg, p, host);
      NotHttpsReason(cfg, p, host);
      RawIpVerdict(cfg, p, host);
    }
  }

  /** A raw-IP host always also counts as having many subdomains (a dotted
      quad has three dots), so its score is at least 8; without HTTPS it is
      capped at 10, which classifies as potential phishing. */
  lemma RawIpIsSuspicious(cfg: Config, raw: string)
    requires Assess(cfg, raw).Returned?
    requires RawIpAddress in Assess(cfg, raw).analysis.reasons
    ensures var a := Assess(cfg, raw).analysis;
            ManySubdomains in a.reasons && a.score >= 8
            && (NotHttps in a.reasons ==> a.score == 10 && ClassifyScore(a.score).level == Danger)
  {
    var parsed := ReturnedCases(cfg, raw);
    if parsed.Some? {
      RawIpExamined(cfg, parsed.value);
    }
  }

  /** `analyzeUrl` throws exactly when the input passes the pattern and `new URL` rejects it. */
  lemma ThrowsExactly(cfg: Config, raw: string)
    ensures Assess(cfg, raw).Threw? <==> Matches(Trim(raw)) && Parsed(Trim(raw)).None?
  {
  }

  /** The guarded analyzer never fails: its score is -1 exactly for an input
      the pattern or the URL parser rejects, and then it carries the one
      invalid-input reason; otherwise it is what `analyzeUrl` returns. */
  lemma GuardedOutcome(cfg: Config, raw: string)
    ensures var a := AssessGuarded(cfg, raw);
            var s := Trim(raw);
            -1 <= a.score <= 10
            && (a.score == -1 <==> !Matches(s) || Parsed(s).None?)
            && (a.score == -1 ==> a == Analysis(-1, [InvalidInput], s))
            && (Assess(cfg, raw).Returned? ==> a == Assess(cfg, raw).analysis)
  {
    var s := Trim(raw);
    ThrowsExactly(cfg, raw);
    if Assess(cfg, raw).Returned? {
      ReturnedOutcome(cfg, raw);
      if !Matches(s) {
        InvalidOutcome(cfg, raw);
      }
    }
  }

  // ---------------------------------------------------------------------
  // Validated inputs that `new URL` rejects
  // ---------------------------------------------------------------------

  /** A string without `:` starts with no scheme, in any case. */
  lemma NoColonNoScheme(h: string, scheme: string)
    requires scheme == "http://" || scheme == "https://"
    requires forall i :: 0 <= i < |h| ==> h[i] != ':'
    ensures !StartsWith(h, scheme) && !StartsWithIgnoringCase(h, scheme)
  {
    if |scheme| <= |h| {
      var n := |scheme|;
      var k := n - 3;
      assert scheme[k] == ':' && LowerChar(':') == ':';
      assert h[..n][k] == h[k];
      assert Lower(h[..n])[k] == LowerChar(h[k]) != ':' == Lower(scheme)[k];
    }
  }

  /** A bare dotted quad holds no `:`, so it has no scheme, in any case. */
  lemma QuadHasNoScheme(h: string)
    requires IsDottedQuad(h)
    ensures SchemeLength(h) == 0 && !HasScheme(h)
  {
    HostShape(h);
    assert forall i :: 0 <= i < |h| ==> h[i] != ':' by {
      forall i | 0 <= i < |h| ensures h[i] != ':' { assert IsHostChar(h[i]); }
    }
    NoColonNoScheme(h, "http://");
    NoColonNoScheme(h, "https://");
  }

  /** A bare dotted quad is accepted, and once schemed the parser sees it as
      the host, with no port. */
  lemma QuadIsAccepted(h: string)
    requires IsDottedQuad(h)
    ensures Matches(h) && WithScheme(h) == "http://" + h
    ensures var u := "http://" + h;
            SchemeLength(u) > 0 && MatchesAuthority(u[SchemeLength(u)..])
            && SplitUrl(u).host == h && SplitUrl(u).port == []
  {
    HostShape(h);
    SpanIsUnique(h, |h|);
    assert h[..|h|] == h;
    QuadHasNoScheme(h);
    assert h[0..] == h;
    HttpPrefix(h);
  }

  /** For a bare dotted quad, `analyzeUrl` throws exactly when the IPv4 parser rejects the host. */
  lemma BareQuadOutcome(cfg: Config, raw: string)
    requires IsDottedQuad(Trim(raw))
    ensures Matches(Trim(raw))
    ensures Assess(cfg, raw) == Threw <==> ParseIpv4(Trim(raw)).None?
  {
    var s := Trim(raw);
    QuadIsAccepted(s);
    var u := "http://" + s;
    assert Parsed(s) == ParseUrl(u);
    assert ParseUrl(u).None? <==> ParseIpv4(s).None?;
    ThrowsExactly(cfg, raw);
  }

  /** The IPv4 number parser reads a shortest numeral back as its value. */
  lemma NumeralNumber(n: nat)
    ensures Ipv4Number(NatToDecimal(n)) == Some(n)
  {
    DecimalRoundTrip(n);
  }

  /** On four numbers below 1000 written with dots, the IPv4 parser fails
      exactly when one of them is above 255. */
  lemma NumeralQuadParse(a: nat, b: nat, c: nat, d: nat)
    requires a < 1000 && b < 1000 && c < 1000 && d < 1000
    ensures IsDottedQuad(Ipv4Text(a, b, c, d))
    ensures ParseIpv4(Ipv4Text(a, b, c, d)).None? <==> a > 255 || b > 255 || c > 255 || d > 255
  {
    Ipv4TextIsDottedQuad(a, b, c, d);
    SplitIpv4Text(a, b, c, d);
    NumeralNumber(a);
    NumeralNumber(b);
    NumeralNumber(c);
    NumeralNumber(d);
  }

  /** Trimming a string that starts and ends with a non-space changes nothing. */
  lemma TrimUnspaced(s: string)
    requires s != [] && !IsJsSpace(s[0]) && !IsJsSpace(s[|s| - 1])
    ensures Trim(s) == s
  {
    assert TrimStart(s) == s;
    assert TrimEnd(s) == s;
  }

  lemma Ipv4TextEnds(a: nat, b: nat, c: nat, d: nat)
    ensures var s := Ipv4Text(a, b, c, d);
            s != [] && IsDigit(s[0]) && IsDigit(s[|s| - 1])
  {
    var s := Ipv4Text(a, b, c, d);
    var first, last := NatToDecimal(a), NatToDecimal(d);
    assert s[0] == first[0];
    assert s[|s| - 1] == last[|last| - 1];
  }

  /** Four numbers below 1000 written with dots pass the input pattern; when
      one is above 255, `new URL` rejects the host and `analyzeUrl` throws. */
  lemma NumeralQuadThrows(cfg: Config, a: nat, b: nat, c: nat, d: nat)
    requires a < 1000 && b < 1000 && c < 1000 && d < 1000
    ensures Matches(Ipv4Text(a, b, c, d))
    ensures Assess(cfg, Ipv4Text(a, b, c, d)).Threw? <==> a > 255 || b > 255 || c > 255 || d > 255
  {
    var s := Ipv4Text(a, b, c, d);
    Ipv4TextEnds(a, b, c, d);
    TrimUnspaced(s);
    NumeralQuadParse(a, b, c, d);
    assert IsDottedQuad(Trim(s));
    BareQuadOutcome(cfg, s);
    assert Assess(cfg, s).Threw? <==> ParseIpv4(s).None?;
  }

  /** `999.1.1.1` passes the input pattern, yet `analyzeUrl` throws on it. */
  lemma OutOfRangeQuadThrows(cfg: Config)
    ensures Matches("999.1.1.1") && Assess(cfg, "999.1.1.1").Threw?
  {
    assert Ipv4Text(999, 1, 1, 1) == "999.1.1.1";
    NumeralQuadThrows(cfg, 999, 1, 1, 1);
  }

  // ---------------------------------------------------------------------
  // Keywords, trusted domains and brands
  // ---------------------------------------------------------------------

  /** The keywords of a table that occur in `text`. */
  ghost function KeywordsFound(keywords: seq<string>, text: string): set<string> {
    set k | k in keywords && Contains(text, k)
  }

  /** With a table free of repeats, the loop counts the distinct keywords that occur in the text. */
  lemma {:induction false} HitsAreDistinctKeywords(keywords: seq<string>, text: string)
    requires NoDuplicates(keywords)
    ensures CountHits(keywords, text) == |KeywordsFound(keywords, text)|
  {
    if keywords != [] {
      var n := |keywords| - 1;
      var init, last := keywords[..n], keywords[n];
      assert NoDuplicates(init);
      HitsAreDistinctKeywords(init, text);
      assert last !in init;
      assert keywords == init + [last];
      if Contains(text, last) {
        assert KeywordsFound(keywords, text) == KeywordsFound(init, text) + {last};
      } else {
        assert KeywordsFound(keywords, text) == KeywordsFound(init, text);
      }
    }
  }

  /** The shipped keyword table has no repeats, so the bonus counts distinct keywords. */
  lemma ShippedHitsAreDistinct(text: string)
    ensures CountHits(SuspiciousKeywords, text) == |KeywordsFound(SuspiciousKeywords, text)|
  {
    assert NoDuplicates(SuspiciousKeywords);
    HitsAreDistinctKeywords(SuspiciousKeywords, text);
  }

  /** Trust extends to every subdomain of a trusted host. */
  lemma TrustedCoversSubdomains(host: string, sub: string, trusted: seq<string>)
    requires IsTrusted(host, trusted)
    ensures IsTrusted(sub + "." + host, trusted)
  {
    var d :| d in trusted && (host == d || EndsWith(host, "." + d));
    var h := sub + "." + host;
    var t := "." + d;
    if host == d {
      assert h[|h| - |t|..] == t;
    } else {
      assert h[|h| - |t|..] == host[|host| - |t|..];
    }
    assert EndsWith(h, t);
  }

  /** The brand test is a plain suffix test: `fedex.com` ends with the brand `x.com`. */
  lemma BrandSuffixWithoutDot()
    ensures ImitatesBrand("fedex.com", KnownBrands)
  {
    assert "fedex.com"[4..] == "x.com";
    assert EndsWith("fedex.com", KnownBrands[4]);
  }

  /** A suffix's first character sits `|t|` places before the end. */
  lemma SuffixStartsAt(h: string, t: string)
    ensures EndsWith(h, t) && t != [] ==> h[|h| - |t|] == t[0]
  {
    if EndsWith(h, t) && t != [] {
      assert h[|h| - |t|..][0] == h[|h| - |t|];
    }
  }

  /** A look-alike that glues a word to a trusted domain is not trusted. */
  lemma GluedLookAlikeUntrusted()
    ensures !IsTrusted("evilgoogle.com", TrustedDomains)
  {
    var h := "evilgoogle.com";
    assert forall k :: 0 <= k < |h| && h[k] == '.' ==> k == 10;
    assert forall d :: d in TrustedDomains ==> |d| != 3 && |d| != |h|;
    forall d | d in TrustedDomains ensures h != d && !EndsWith(h, "." + d) {
      SuffixStartsAt(h, "." + d);
    }
  }

  /** The same look-alike is caught by the brand rule. */
  lemma GluedLookAlikeImitates()
    ensures ImitatesBrand("evilgoogle.com", KnownBrands)
  {
    var h := "evilgoogle.com";
    assert h[4..] == "google.com";
    assert EndsWith(h, KnownBrands[0]);
  }
}
