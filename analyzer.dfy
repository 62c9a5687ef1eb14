/** `analyzeUrl` of script.js: validation, the trust short-circuit, the
    weighted rules and the cap.

    `AnalyzeUrl` follows the source statement by statement, with a running
    `score`, a growing `reasons` list and a loop over the keyword table. It is
    proved equal to `Assess`, which states the same outcome declaratively: the
    nine rules as a list of (weight, optional reason) pairs in source order,
    the score as the capped sum of weights, the reasons as the reasons of the
    rules that fired. The lemmas at the end are stated about `Assess`. */
module Analyzer {
  import opened Text
  import opened Pattern
  import opened UrlParse
  import opened Tables

  /** The reasons `analyzeUrl` can report; `Message` gives each one's text. */
  datatype Reason =
    | InvalidInput
    | LocalDevelopment
    | TrustedDomain
    | NotHttps
    | UnusuallyLong
    | RawIpAddress
    | ManySubdomains
    | HasAtSign
    | MultipleHyphens
    | SuspiciousTld(tld: string)
    | BrandImitation
    | NoStrongIndicators

  function Message(r: Reason): string {
    match r
    case InvalidInput => "Invalid input. Please enter a valid website URL."
    case LocalDevelopment => "Local development URL detected (not a phishing target)."
    case TrustedDomain => "This URL belongs to a well-known trusted domain."
    case NotHttps => "The connection is not using HTTPS."
    case UnusuallyLong => "The URL is unusually long."
    case RawIpAddress => "The URL uses a raw IP address."
    case ManySubdomains => "The domain has many subdomains."
    case HasAtSign => "The URL contains '@'."
    case MultipleHyphens => "The domain contains multiple hyphens."
    case SuspiciousTld(tld) => "Suspicious top-level domain used (" + tld + ")."
    case BrandImitation => "The domain imitates a well-known brand."
    case NoStrongIndicators => "No strong phishing indicators were detected."
  }

  /** The object `analyzeUrl` returns. */
  datatype Analysis = Analysis(score: int, reasons: seq<Reason>, normalizedUrl: string)

  /** `Threw` is the `TypeError` of `new URL` escaping `analyzeUrl`. */
  datatype Outcome = Returned(analysis: Analysis) | Threw

  // ---------------------------------------------------------------------
  // Validation and normalization
  // ---------------------------------------------------------------------

  /** `/^https?:\/\//i.test(s)`. */
  predicate HasScheme(s: string) {
    StartsWithIgnoringCase(s, "http://") || StartsWithIgnoringCase(s, "https://")
  }

  /** The string handed to `new URL`: `http://` put in front when no scheme is present. */
  function WithScheme(s: string): string {
    if HasScheme(s) then s else "http://" + s
  }

  /** Putting `http://` in front gives a seven-character scheme followed by the input. */
  lemma HttpPrefix(s: string)
    ensures SchemeLength("http://" + s) == 7 && ("http://" + s)[7..] == s
  {
    var u := "http://" + s;
    assert u[..7] == "http://" && u[4] == ':';
  }

  /** Every accepted string, once schemed, is one the parser model takes. */
  lemma WithSchemeParses(s: string)
    requires Matches(s)
    ensures SchemeLength(WithScheme(s)) > 0
    ensures MatchesAuthority(WithScheme(s)[SchemeLength(WithScheme(s))..])
  {
    SchemeTestAgrees(s);
    if !HasScheme(s) {
      HttpPrefix(s);
      assert s[0..] == s;
    }
  }

  /** The parsed URL of an accepted input; None when `new URL` throws. */
  function Parsed(s: string): Option<UrlParts>
    requires Matches(s)
  {
    WithSchemeParses(s);
    ParseUrl(WithScheme(s))
  }

  // ---------------------------------------------------------------------
  // Trust short-circuit
  // ---------------------------------------------------------------------

  predicate IsLoopback(host: string) { host == "localhost" || host == "127.0.0.1" }

  /** `TRUSTED_DOMAINS.some(d => host === d || host.endsWith("." + d))`. */
  predicate IsTrusted(host: string, trusted: seq<string>) {
    exists d :: d in trusted && (host == d || EndsWith(host, "." + d))
  }

  // ---------------------------------------------------------------------
  // The rules, in source order
  // ---------------------------------------------------------------------

  /** What one rule contributes: a weight and at most one reason. */
  datatype Rule = Rule(weight: nat, reason: Option<Reason>)

  const Silent: Rule := Rule(0, None)

  /** Position in the rule order of the rule that pushes a reason; the
      keyword bonus, which pushes none, holds position 7. */
  function Rank(r: Reason): nat {
    match r
    case NotHttps => 0
    case UnusuallyLong => 1
    case RawIpAddress => 2
    case ManySubdomains => 3
    case HasAtSign => 4
    case MultipleHyphens => 5
    case SuspiciousTld(_) => 6
    case BrandImitation => 8
    case NoStrongIndicators => 9
    case _ => 10
  }

  function HttpsRule(protocol: string): Rule {
    if protocol != "https:" then Rule(2, Some(NotHttps)) else Silent
  }

  /** The length rule: nothing up to 90 characters, 2 up to 130, 4 beyond. */
  function LengthRule(length: nat): (r: Rule)
    ensures length <= 90 ==> r == Silent
    ensures 90 < length <= 130 ==> r == Rule(2, Some(UnusuallyLong))
    ensures 130 < length ==> r == Rule(4, Some(UnusuallyLong))
  {
    if length > 90 then Rule(if length > 130 then 4 else 2, Some(UnusuallyLong)) else Silent
  }

  function RawIpRule(host: string): Rule {
    if IsDottedQuad(host) then Rule(5, Some(RawIpAddress)) else Silent
  }

  /** `host.split(".").length - 1 >= 3`. */
  function SubdomainRule(host: string): Rule {
    if |Split(host, '.')| - 1 >= 3 then Rule(3, Some(ManySubdomains)) else Silent
  }

  function AtRule(href: string): Rule {
    if Contains(href, "@") then Rule(4, Some(HasAtSign)) else Silent
  }

  /** `(host.match(/-/g) || []).length >= 2`. */
  function HyphenRule(host: string): Rule {
    if CountChar(host, '-') >= 2 then Rule(2, Some(MultipleHyphens)) else Silent
  }

  predicate IsTldChar(c: char) { IsLowerAlpha(c) || IsDigit(c) || c == '-' }

  /** Index of the last `.` in `s`. */
  function LastDot(s: string): (r: Option<nat>)
    ensures r.Some? ==> r.value < |s| && s[r.value] == '.'
                        && forall i :: r.value < i < |s| ==> s[i] != '.'
    ensures r.None? ==> forall i :: 0 <= i < |s| ==> s[i] != '.'
  {
    if s == [] then None
    else if s[|s| - 1] == '.' then Some(|s| - 1)
    else LastDot(s[..|s| - 1])
  }

  /** `host.match(/\.[a-z0-9-]+$/)?.[0]`: the last dot and what follows it,
      when that is a non-empty run of `[a-z0-9-]`. */
  function TldOf(host: string): Option<string> {
    match LastDot(host)
    case None => None
    case Some(k) =>
      if k + 1 < |host| && forall i :: k < i < |host| ==> IsTldChar(host[i]) then Some(host[k..]) else None
  }

  /** A match of `\.[a-z0-9-]+$`: a suffix of the host that is a dot and a non-empty run of `[a-z0-9-]`. */
  ghost predicate IsTldMatch(host: string, t: string) {
    EndsWith(host, t) && |t| >= 2 && t[0] == '.' && forall i :: 1 <= i < |t| ==> IsTldChar(t[i])
  }

  /** `TldOf` finds the regular expression's match, and the match is unique. */
  lemma TldOfIsTheMatch(host: string, t: string)
    ensures TldOf(host) == Some(t) <==> IsTldMatch(host, t)
  {
    if IsTldMatch(host, t) {
      var k := |host| - |t|;
      assert host[k] == t[0] == '.';
      forall i | k < i < |host| ensures host[i] != '.' && IsTldChar(host[i]) {
        assert host[i] == t[i - k];
      }
      assert LastDot(host) == Some(k);
    }
    if TldOf(host) == Some(t) {
      var k := LastDot(host).value;
      forall i | 1 <= i < |t| ensures IsTldChar(t[i]) {
        assert t[i] == host[k + i];
      }
    }
  }

  function TldRule(host: string, suspiciousTlds: seq<string>): Rule {
    var tld := TldOf(host);
    if tld.Some? && tld.value in suspiciousTlds then Rule(3, Some(SuspiciousTld(tld.value))) else Silent
  }

  /** Number of table keywords that occur in `text`, counted as the `forEach` loop counts them. */
  function CountHits(keywords: seq<string>, text: string): (n: nat)
    ensures n <= |keywords|
  {
    if keywords == [] then 0
    else CountHits(keywords[..|keywords| - 1], text) + (if Contains(text, keywords[|keywords| - 1]) then 1 else 0)
  }

  /** The keyword bonus: 0 without hits, 2 for one or two, 4 for three or more; never a reason. */
  function KeywordRule(hits: nat): (r: Rule)
    ensures r.reason == None
    ensures hits == 0 ==> r.weight == 0
    ensures 1 <= hits <= 2 ==> r.weight == 2
    ensures 3 <= hits ==> r.weight == 4
  {
    Rule((if hits > 0 then 2 else 0) + (if hits >= 3 then 2 else 0), None)
  }

  /** `KNOWN_BRANDS.some(b => host.endsWith(b) && host !== b)`: a plain suffix test, no dot required. */
  predicate ImitatesBrand(host: string, brands: seq<string>) {
    exists b :: b in brands && EndsWith(host, b) && host != b
  }

  function BrandRule(host: string, brands: seq<string>): Rule {
    if ImitatesBrand(host, brands) then Rule(4, Some(BrandImitation)) else Silent
  }

  /** The text the keywords are looked for in: `${host} ${pathname} ${search}`. */
  function KeywordText(host: string, p: UrlParts): string {
    host + " " + p.pathname + " " + p.search
  }

  /** The nine rules of a URL that passed the trust check, in the order the source applies them. */
  function Rules(cfg: Config, p: UrlParts, host: string): seq<Rule>
  {
    [ HttpsRule(p.protocol),
      LengthRule(|p.href|),
      RawIpRule(host),
      SubdomainRule(host),
      AtRule(p.href),
      HyphenRule(host),
      TldRule(host, cfg.suspiciousTlds),
      KeywordRule(CountHits(cfg.keywords, KeywordText(host, p))),
      BrandRule(host, cfg.brands) ]
  }

  /** Sum of the weights of the first `k` rules. */
  function Total(rs: seq<Rule>, k: nat): nat
    requires k <= |rs|
  {
    if k == 0 then 0 else Total(rs, k - 1) + rs[k - 1].weight
  }

  /** The reason a rule pushes, as a list of zero or one. */
  function Pushed(r: Rule): seq<Reason> {
    if r.reason.Some? then [r.reason.value] else []
  }

  /** The reasons of the first `k` rules, in rule order. */
  function Emitted(rs: seq<Rule>, k: nat): seq<Reason>
    requires k <= |rs|
  {
    if k == 0 then [] else Emitted(rs, k - 1) + Pushed(rs[k - 1])
  }

  /** The outcome for a URL that passed the trust check. */
  function Verdict(cfg: Config, p: UrlParts, host: string): Analysis {
    var rs := Rules(cfg, p, host);
    var total := Total(rs, |rs|);
    Analysis(if total < 10 then total else 10,
             Emitted(rs, |rs|) + (if total == 0 then [NoStrongIndicators] else []),
             p.href)
  }

  /** The outcome for a parsed URL: the loopback and trust short-circuits, then the verdict. */
  function Examine(cfg: Config, p: UrlParts): Analysis {
    var host := Lower(p.hostname);
    if IsLoopback(host) then Analysis(0, [LocalDevelopment], p.href)
    else if IsTrusted(host, cfg.trusted) then Analysis(0, [TrustedDomain], p.href)
    else Verdict(cfg, p, host)
  }

  /** What `analyzeUrl(raw)` returns, or that it throws. */
  function Assess(cfg: Config, raw: string): Outcome {
    var s := Trim(raw);
    if !Matches(s) then Returned(Analysis(-1, [InvalidInput], s))
    else
      match Parsed(s)
      case None => Threw
      case Some(p) => Returned(Examine(cfg, p))
  }

  /** `analyzeUrl` as its contract intends it: an input that passes the
      pattern but that `new URL` rejects is reported like any other invalid
      input instead of escaping as an exception. */
  function AssessGuarded(cfg: Config, raw: string): Analysis {
    match Assess(cfg, raw)
    case Returned(a) => a
    case Threw => Analysis(-1, [InvalidInput], Trim(raw))
  }

  // ---------------------------------------------------------------------
  // The analyzer as the source writes it
  // ---------------------------------------------------------------------

  /** `analyzeUrl(rawUrl)`: validation, normalization, parsing and the trust check. */
  method AnalyzeUrl(cfg: Config, rawUrl: string) returns (out: Outcome)
    ensures out == Assess(cfg, rawUrl)
  {
    var urlString := Trim(rawUrl);

    if !Matches(urlString) {
      return Returned(Analysis(-1, [InvalidInput], urlString));
    }
    ghost var validated := urlString;

    if !HasScheme(urlString) {
      urlString := "http://" + urlString;
    }

    WithSchemeParses(validated);
    var urlObj := ParseUrl(urlString);
    if urlObj.None? {
      return Threw;
    }
    var p := urlObj.value;
    var host := Lower(p.hostname);
    if host == "localhost" || host == "127.0.0.1" {
      return Returned(Analysis(0, [LocalDevelopment], p.href));
    }

    if IsTrusted(host, cfg.trusted) {
      return Returned(Analysis(0, [TrustedDomain], p.href));
    }

    var analysis := ScoreUrl(cfg, p, host);
    return Returned(analysis);
  }

  /** The total and the reasons of nine rules, written out. */
  lemma NineRules(rs: seq<Rule>)
    requires |rs| == 9
    ensures Total(rs, 9) == rs[0].weight + rs[1].weight + rs[2].weight + rs[3].weight + rs[4].weight
                            + rs[5].weight + rs[6].weight + rs[7].weight + rs[8].weight
    ensures Emitted(rs, 9) == Pushed(rs[0]) + Pushed(rs[1]) + Pushed(rs[2]) + Pushed(rs[3]) + Pushed(rs[4])
                              + Pushed(rs[5]) + Pushed(rs[6]) + Pushed(rs[7]) + Pushed(rs[8])
  {
    assert Emitted(rs, 1) == Pushed(rs[0]);
    assert Emitted(rs, 3) == Emitted(rs, 1) + Pushed(rs[1]) + Pushed(rs[2]);
    assert Emitted(rs, 5) == Emitted(rs, 3) + Pushed(rs[3]) + Pushed(rs[4]);
    assert Emitted(rs, 7) == Emitted(rs, 5) + Pushed(rs[5]) + Pushed(rs[6]);
    assert Emitted(rs, 9) == Emitted(rs, 7) + Pushed(rs[7]) + Pushed(rs[8]);
    assert Total(rs, 1) == rs[0].weight;
    assert Total(rs, 3) == Total(rs, 1) + rs[1].weight + rs[2].weight;
    assert Total(rs, 5) == Total(rs, 3) + rs[3].weight + rs[4].weight;
    assert Total(rs, 7) == Total(rs, 5) + rs[5].weight + rs[6].weight;
    assert Total(rs, 9) == Total(rs, 7) + rs[7].weight + rs[8].weight;
  }

  /** The outcome `ScoreUrl` builds from the uncapped score and the reasons of the rules is the verdict. */
  lemma Conclude(cfg: Config, p: UrlParts, host: string, score: int, reasons: seq<Reason>, a: Analysis)
    requires score
             == HttpsRule(p.protocol).weight + LengthRule(|p.href|).weight + RawIpRule(host).weight
                + SubdomainRule(host).weight + AtRule(p.href).weight + HyphenRule(host).weight
                + TldRule(host, cfg.suspiciousTlds).weight
                + KeywordRule(CountHits(cfg.keywords, KeywordText(host, p))).weight
                + BrandRule(host, cfg.brands).weight
    requires reasons
             == Pushed(HttpsRule(p.protocol)) + Pushed(LengthRule(|p.href|)) + Pushed(RawIpRule(host))
                + Pushed(SubdomainRule(host)) + Pushed(AtRule(p.href)) + Pushed(HyphenRule(host))
                + Pushed(TldRule(host, cfg.suspiciousTlds))
                + Pushed(KeywordRule(CountHits(cfg.keywords, KeywordText(host, p))))
                + Pushed(BrandRule(host, cfg.brands))
    requires a == Analysis(if score < 10 then score else 10,
                           reasons + (if score == 0 then [NoStrongIndicators] else []), p.href)
    ensures a == Verdict(cfg, p, host)
  {
    NineRules(Rules(cfg, p, host));
  }

  // Each rule of `analyzeUrl` is one `if` that adds its weight to the score and
  // pushes its reason; each method below is one of those blocks.

  method ApplyHttpsRule(protocol: string, score: int, reasons: seq<Reason>) returns (score': int, reasons': seq<Reason>)
    ensures score' == score + HttpsRule(protocol).weight
    ensures reasons' == reasons + Pushed(HttpsRule(protocol))
  {
    score', reasons' := score, reasons;
    if protocol != "https:" {
      score' := score' + 2;
      reasons' := reasons' + [NotHttps];
    }
  }

  method ApplyLengthRule(href: string, score: int, reasons: seq<Reason>) returns (score': int, reasons': seq<Reason>)
    ensures score' == score + LengthRule(|href|).weight
    ensures reasons' == reasons + Pushed(LengthRule(|href|))
  {
    score', reasons' := score, reasons;
    if |href| > 90 {
      score' := score' + if |href| > 130 then 4 else 2;
      reasons' := reasons' + [UnusuallyLong];
    }
  }

  method ApplyRawIpRule(host: string, score: int, reasons: seq<Reason>) returns (score': int, reasons': seq<Reason>)
    ensures score' == score + RawIpRule(host).weight
    ensures reasons' == reasons + Pushed(RawIpRule(host))
  {
    score', reasons' := score, reasons;
    if IsDottedQuad(host) {
      score' := score' + 5;
      reasons' := reasons' + [RawIpAddress];
    }
  }

  method ApplySubdomainRule(host: string, score: int, reasons: seq<Reason>) returns (score': int, reasons': seq<Reason>)
    ensures score' == score + SubdomainRule(host).weight
    ensures reasons' == reasons + Pushed(SubdomainRule(host))
  {
    score', reasons' := score, reasons;
    if |Split(host, '.')| - 1 >= 3 {
      score' := score' + 3;
      reasons' := reasons' + [ManySubdomains];
    }
  }

  method ApplyAtRule(href: string, score: int, reasons: seq<Reason>) returns (score': int, reasons': seq<Reason>)
    ensures score' == score + AtRule(href).weight
    ensures reasons' == reasons + Pushed(AtRule(href))
  {
    score', reasons' := score, reasons;
    if Contains(href, "@") {
      score' := score' + 4;
      reasons' := reasons' + [HasAtSign];
    }
  }

  method ApplyHyphenRule(host: string, score: int, reasons: seq<Reason>) returns (score': int, reasons': seq<Reason>)
    ensures score' == score + HyphenRule(host).weight
    ensures reasons' == reasons + Pushed(HyphenRule(host))
  {
    score', reasons' := score, reasons;
    if CountChar(host, '-') >= 2 {
      score' := score' + 2;
      reasons' := reasons' + [MultipleHyphens];
    }
  }

  method ApplyTldRule(host: string, suspiciousTlds: seq<string>, score: int, reasons: seq<Reason>)
    returns (score': int, reasons': seq<Reason>)
    ensures score' == score + TldRule(host, suspiciousTlds).weight
    ensures reasons' == reasons + Pushed(TldRule(host, suspiciousTlds))
  {
    score', reasons' := score, reasons;
    var tld := TldOf(host);
    if tld.Some? && tld.value in suspiciousTlds {
      score' := score' + 3;
      reasons' := reasons' + [SuspiciousTld(tld.value)];
    }
  }

  /** The keyword loop and the two bonuses that follow it; they push no reason. */
  method ApplyKeywordRule(keywords: seq<string>, host: string, p: UrlParts, score: int) returns (score': int)
    ensures score' == score + KeywordRule(CountHits(keywords, KeywordText(host, p))).weight
  {
    score' := score;
    var combined := host + " " + p.pathname + " " + p.search;
    var keywordHits := CountKeywordHits(keywords, combined);
    if keywordHits > 0 {
      score' := score' + 2;
    }
    if keywordHits >= 3 {
      score' := score' + 2;
    }
  }

  method ApplyBrandRule(host: string, brands: seq<string>, score: int, reasons: seq<Reason>)
    returns (score': int, reasons': seq<Reason>)
    ensures score' == score + BrandRule(host, brands).weight
    ensures reasons' == reasons + Pushed(BrandRule(host, brands))
  {
    score', reasons' := score, reasons;
    if ImitatesBrand(host, brands) {
      score' := score' + 4;
      reasons' := reasons' + [BrandImitation];
    }
  }

  /** The scoring part of `analyzeUrl`: the rules in source order, the fallback reason and the cap. */
  method ScoreUrl(cfg: Config, p: UrlParts, host: string) returns (a: Analysis)
    ensures a == Verdict(cfg, p, host)
  {
    var score := 0;
    var reasons: seq<Reason> := [];
    score, reasons := ApplyHttpsRule(p.protocol, score, reasons);
    assert reasons == Pushed(HttpsRule(p.protocol));
    score, reasons := ApplyLengthRule(p.href, score, reasons);
    score, reasons := ApplyRawIpRule(host, score, reasons);
    score, reasons := ApplySubdomainRule(host, score, reasons);
    score, reasons := ApplyAtRule(p.href, score, reasons);
    score, reasons := ApplyHyphenRule(host, score, reasons);
    score, reasons := ApplyTldRule(host, cfg.suspiciousTlds, score, reasons);
    score := ApplyKeywordRule(cfg.keywords, host, p, score);
    assert reasons == reasons + Pushed(KeywordRule(CountHits(cfg.keywords, KeywordText(host, p))));
    score, reasons := ApplyBrandRule(host, cfg.brands, score, reasons);
    ghost var uncapped, listed := score, reasons;

    if score == 0 {
      reasons := reasons + [NoStrongIndicators];
    }

    score := if score < 10 then score else 10;
    a := Analysis(score, reasons, p.href);
    Conclude(cfg, p, host, uncapped, listed, a);
  }



  /** The `forEach` over the keyword table: how many keywords occur in `text`. */
  method CountKeywordHits(keywords: seq<string>, text: string) returns (hits: nat)
    ensures hits == CountHits(keywords, text)
  {
    hits := 0;
    for i := 0 to |keywords|
      invariant hits == CountHits(keywords[..i], text)
    {
      assert keywords[..i + 1][..i] == keywords[..i];
      if Contains(text, keywords[i]) {
        hits := hits + 1;
      }
    }
    assert keywords[..|keywords|] == keywords;
  }
}
