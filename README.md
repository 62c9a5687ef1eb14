# Phishing-Website-Detector: the URL analysis engine in Dafny

This project models the analysis engine of the browser-side phishing detector in
`script.js`, and proves properties of it. The engine is made of four parts:

- The input validator `domainPattern`. It accepts an optional `http://` or
  `https://`, then a host, an optional port and an optional path/query/fragment
  tail. The host is `localhost`, a dotted domain name or a dotted quad.
- `analyzeUrl`. It trims the input and validates it. It puts `http://` in front
  when no scheme is present, then parses the result with `new URL` and lower-cases
  the hostname. Loopback and trusted hosts short-circuit to score 0. Every other
  host goes through the weighted rules, in source order:
  1. HTTPS.
  2. Length.
  3. Raw IP.
  4. Subdomains.
  5. `@`.
  6. Hyphens.
  7. Suspicious TLD.
  8. The keyword bonus, which adds weight but gives no reason.
  9. Brand imitation.

  A score of 0 gets the "no strong indicators" reason. The score is capped at 10.
- `classifyScore`. It maps a score to one of three tiers.
- The four tables: known brands, trusted domains, suspicious TLDs and
  suspicious keywords.

Modules:

- `Text`: the string operations the engine calls (`trim`, `split`, `includes`,
  `startsWith`, `endsWith`, `toLowerCase`) and decimal numerals.
- `Pattern`: `domainPattern`, as a scanning recogniser `Matches`. It is proved
  equal to `InLanguage`, the pattern's language written as a concatenation of parts.
- `UrlParse`: `new URL` on the strings that can reach it. This is the parts of
  the WHATWG URL Standard that such strings exercise:
  - The IPv4 parser, with octal groups and the 255 limit.
  - The port limit of 65535 and dropping of the default port.
  - Lower-casing of the host.
  - Path normalisation to a leading `/`.

  A rejection (`None`) is the `TypeError` the constructor throws.
- `Tables`: the four tables as a `Config` value. Every property holds for any
  tables, and `Shipped` holds the ones the program ships.
- `Analyzer`:
  - `AnalyzeUrl` and its rule methods follow the source statement by statement.
  - The functions `Assess`, `Examine` and `Verdict` state the same outcome
    declaratively. A rule is a weight and an optional reason. The score is the
    capped sum, and the reasons are those of the rules that fired, in rule order.
  - `Outcome.Threw` stands for the exception that escapes `analyzeUrl`.
- `Classifier`: `classifyScore`.
- `Properties`: what the engine promises, stated about `Assess`, `Examine` and
  `Verdict`.

`analyzeUrl` reports a rejected input as score -1 with a single reason
(script.js:109-115). The page enables scanning for every input the pattern
accepts (script.js:79-99). Yet `new URL` throws on some accepted inputs. The
model follows the code as written, and "## Findings" records the difference.

## Model

| member | source | states |
|---|---|---|
| `Text.Trim` | script.js:105 | the result is the input with leading and trailing ECMAScript white space removed and nothing else: it sits inside the input, everything around it is white space, and its own ends are not |
| `Text.Split` | script.js:155 | `split(".")` yields one more piece than there are separators, and no piece holds the separator |
| `Text.JoinSplit` | script.js:155 | joining the pieces of `split` with the separator gives the string back |
| `Text.ContainsIsSubstring` | script.js:160 | `includes` holds exactly when the pattern occurs at some index of the string |
| `Text.Lower` | script.js:123 | `toLowerCase` keeps the length and lower-cases every character position by position |
| `Text.LowerIdempotent` | script.js:123 | lower-casing the already lower-cased hostname again changes nothing |
| `UrlParse.ParsedHostnameIsLowerCase` | script.js:121-123 | the hostname `new URL` reports is already lower case, so the `toLowerCase` after parsing changes nothing |
| `Pattern.MatchesIsLanguage` | script.js:60-61 | the recogniser accepts exactly the strings of `domainPattern`'s language: scheme, host, port and tail |
| `Pattern.HostShape` | script.js:61 | every host the pattern accepts is made of letters, digits, `-` and `.`, and holds a dot unless it is `localhost` |
| `Pattern.SchemeBlocksBareHost` | script.js:61 | text that starts with a scheme cannot be read as a host, so the optional scheme group is taken in only one way |
| `Pattern.SchemeTestAgrees` | script.js:109-119 | on validated input the case-insensitive scheme test holds exactly when the pattern took a (lower-case) scheme, since a scheme in other letter cases would leave `http`/`https` as the host |
| `Analyzer.HttpPrefix` | script.js:117-119 | putting `http://` in front gives a seven-character scheme followed by the untouched input |
| `Analyzer.WithSchemeParses` | script.js:109-122 | every validated and schemed string is one the parser model takes: a scheme followed by an accepted authority |
| `UrlParse.SplitUrl` | script.js:121 | a validated, schemed string cuts into scheme, host, port digits and tail that glue back to it; the host is an accepted host, the port has at most five digits |
| `UrlParse.PortPart` | script.js:121 | the serialized port fails exactly above 65535, is empty exactly when absent or equal to the scheme's default, and is otherwise `:` and the port's shortest numeral |
| `UrlParse.PortValueKept` | script.js:121 | a kept port keeps its value and loses only its leading zeros (`:08080` becomes `:8080`), which `href.length` sees |
| `UrlParse.HostnameOf` | script.js:121-123 | the serialized host fails exactly for a dotted quad the IPv4 parser rejects |
| `UrlParse.ParseUrl` | script.js:121-122 | `new URL` throws exactly for a dotted quad the IPv4 parser rejects or a port above 65535; otherwise `protocol` follows the scheme and `hostname` is the serialized host |
| `UrlParse.ParsedShape` | script.js:121-122 | `href` starts with protocol, `//` and hostname; `pathname` starts with `/`; `href` holds `@` exactly when the input does |
| `UrlParse.ParsedQuadIsQuad` | script.js:150-153 | a dotted-quad host is still a dotted quad once parsed, so the raw-IP test sees it |
| `UrlParse.Ipv4TextIsDottedQuad` | script.js:150-153 | four numbers below 1000 written with dots form a dotted quad |
| `Analyzer.AnalyzeUrl` | script.js:104-197 | the statement-by-statement analyzer returns, or throws, exactly what `Assess` states |
| `Analyzer.ScoreUrl` | script.js:140-196 | the rules applied in order, then the fallback reason and the cap, give the verdict: capped sum of weights, reasons of the rules that fired |
| `Analyzer.Conclude` | script.js:191-196 | the uncapped score and reasons of the nine rules, with the fallback for 0 and the cap at 10, are the verdict |
| `Analyzer.ApplyHttpsRule` | script.js:140-143 | adds the HTTPS rule's weight and pushes its reason exactly when the protocol is not `https:` |
| `Analyzer.ApplyLengthRule` | script.js:145-148 | adds the length rule's weight and pushes its reason |
| `Analyzer.LengthRule` | script.js:145-148 | nothing up to 90 characters, weight 2 with the reason up to 130, weight 4 with the reason beyond |
| `Analyzer.ApplyRawIpRule` | script.js:150-153 | adds 5 and the raw-IP reason exactly for a dotted-quad host |
| `Analyzer.ApplySubdomainRule` | script.js:155-158 | adds 3 and the subdomain reason exactly when the host splits into four or more pieces |
| `Analyzer.ApplyAtRule` | script.js:160-163 | adds 4 and the `@` reason exactly when `href` contains `@` |
| `Analyzer.ApplyHyphenRule` | script.js:166-169 | adds 2 and the hyphen reason exactly when the host has two or more hyphens |
| `Analyzer.TldOfIsTheMatch` | script.js:171 | the extracted TLD is the match of `\.[a-z0-9-]+$`, and that match is unique |
| `Analyzer.ApplyTldRule` | script.js:171-175 | adds 3 and the TLD reason naming the matched suffix exactly when that suffix is listed |
| `Analyzer.CountKeywordHits` | script.js:177-181 | the `forEach` loop counts the table keywords that occur in the combined text |
| `Analyzer.KeywordRule` | script.js:183-184 | the keyword bonus is 0 without hits, 2 for one or two, 4 for three or more, and never gives a reason |
| `Analyzer.ApplyKeywordRule` | script.js:177-184 | the keyword loop and the two bonuses add the keyword rule's weight and push no reason |
| `Analyzer.ApplyBrandRule` | script.js:186-189 | adds 4 and the brand reason exactly when the host ends with a brand without being it |
| `Classifier.ClassifyScore` | script.js:202-206 | every score falls in exactly one tier: safe at most 3, warning 4 to 8, danger above 8, each with its label |
| `Classifier.ClassificationMonotone` | script.js:202-206 | a higher score never lands in a lower tier |
| `Properties.RulesRanked` | script.js:140-189 | the nine rules come in source order, each pushes only its own reason, and the keyword bonus pushes none |
| `Properties.RulesSpeak` | script.js:140-189 | every rule except the keyword bonus pushes its reason exactly when it adds weight |
| `Properties.EmittedMembers` | script.js:140-189 | a reason is reported exactly when one of the rules pushes it |
| `Properties.EmittedInRankOrder` | script.js:140-189 | the reasons of ranked rules come out in strictly increasing rule order |
| `Properties.EmittedEmpty` | script.js:140-189 | no reason is reported exactly when no rule pushes one |
| `Properties.TotalZero` | script.js:191-193 | the summed score is zero exactly when every rule weighs nothing |
| `Properties.ReasonsInRuleOrder` | script.js:140-193 | the reasons follow the order of the rules, each at most once, and the fallback comes last |
| `Properties.VerdictScore` | script.js:191-196 | a scored URL gets 0 to 10; the fallback reason appears exactly at score 0; invalid, local and trusted reasons never appear |
| `Properties.RankedMember` | script.js:140-189 | with rules in order, a reason is reported exactly when the rule at its position pushes it |
| `Properties.VerdictMember` | script.js:140-189 | every reason except the fallback is in the verdict exactly when its own rule pushes it |
| `Properties.UrlReasons` | script.js:140-163 | the not-HTTPS, length and `@` reasons appear exactly when the protocol is not `https:`, `href` is over 90 characters, and `href` contains `@` |
| `Properties.HostReasons` | script.js:150-189 | the raw-IP, subdomain, hyphen and brand reasons appear exactly for a dotted quad, three or more dots, two or more hyphens, and a brand the host ends with without being it |
| `Properties.TldReason` | script.js:171-175 | the reason naming suffix `t` appears exactly when `t` is the host's `\.[a-z0-9-]+$` match and is listed |
| `Properties.KeywordOnly` | script.js:177-193 | the reason list is empty exactly when keywords occur and their bonus is the whole score, which is then 2 or 4 |
| `Properties.ExamineScore` | script.js:123-196 | a parsed URL scores 0 to 10, never as invalid, and a local or trusted reason comes alone with score 0 |
| `Properties.ShortCircuit` | script.js:123-138 | loopback is decided first and trust second: the local reason appears exactly for `localhost`/`127.0.0.1`, the trusted reason exactly for a non-loopback trusted host, and `normalizedUrl` is `href` |
| `Properties.InvalidOutcome` | script.js:109-115 | an input the pattern rejects returns score -1, the single invalid-input reason and the trimmed input |
| `Properties.ReturnedCases` | script.js:104-197 | a returned analysis is either the invalid-input result of a rejected input or the outcome of the parsed URL of an accepted one |
| `Properties.ReturnedOutcome` | script.js:104-197 | a returned score lies in -1..10, is -1 exactly for rejected inputs, and is -1 exactly when the reasons are the invalid-input reason alone |
| `Properties.ShortCircuitAlone` | script.js:124-138 | in whatever is returned, a local or trusted reason comes alone with score 0 |
| `Properties.RawIpVerdict` | script.js:150-158 | a dotted-quad host also fires the subdomain rule, so it scores at least 8, and 10 without HTTPS |
| `Properties.RawIpExamined` | script.js:140-158 | whenever the raw-IP reason is reported, the subdomain reason is too and the score is at least 8, 10 with the not-HTTPS reason |
| `Properties.RawIpIsSuspicious` | script.js:140-206 | a returned raw-IP result has the subdomain reason and score at least 8; without HTTPS it is 10 and classified as potential phishing |
| `Properties.ThrowsExactly` | script.js:109-122 | `analyzeUrl` throws exactly when the trimmed input passes the pattern and `new URL` rejects it |
| `Properties.GuardedOutcome` | script.js:104-122 | the guarded analyzer never throws: -1..10, -1 exactly when the pattern or the URL parser rejects the input, then with the single invalid-input reason; otherwise the same result as `analyzeUrl` |
| `Properties.QuadIsAccepted` | script.js:60-61 | a bare dotted quad passes the pattern, gets `http://` in front, and is parsed with itself as host and no port |
| `Properties.BareQuadOutcome` | script.js:109-122 | for a bare dotted quad, `analyzeUrl` throws exactly when the IPv4 parser rejects it |
| `Properties.NumeralQuadParse` | script.js:121 | four numbers below 1000 with dots form a dotted quad that the IPv4 parser rejects exactly when one is above 255 |
| `Properties.NumeralQuadThrows` | script.js:104-122 | four numbers below 1000 with dots pass the pattern, and `analyzeUrl` throws on them exactly when one is above 255 |
| `Properties.OutOfRangeQuadThrows` | script.js:109-122 | `999.1.1.1` passes the pattern, yet `analyzeUrl` throws on it |
| `Properties.HitsAreDistinctKeywords` | script.js:177-181 | with a table free of repeats, the hit count is the number of distinct keywords that occur in the text |
| `Properties.ShippedHitsAreDistinct` | script.js:55-58 | the shipped keyword table has no repeats, so its hit count is the number of distinct keywords found |
| `Properties.TrustedCoversSubdomains` | script.js:132 | a trusted host's subdomains are trusted too |
| `Properties.GluedLookAlikeUntrusted` | script.js:46-49 | `evilgoogle.com` is not trusted: trust needs equality or a dot before the domain |
| `Properties.GluedLookAlikeImitates` | script.js:40-44 | `evilgoogle.com` is caught by the brand rule |
| `Properties.BrandSuffixWithoutDot` | script.js:186 | the brand test is a bare suffix test: `fedex.com` counts as imitating the brand `x.com` |

## Left out

- The page code is not part of this model (script.js:4-35, 67-99, 208-271):
  - element lookups;
  - the live input handler and the submit handler;
  - `renderResult` (score text, badge, reason list, report section);
  - the report button's `alert`;
  - the account dropdown handlers.

  The model keeps only the functions they call.
- server.js is not part of this model. It is an Express JSON API with
  `/api/health`, `/api/signup` and `/api/login` over an in-memory user list,
  followed by account-menu click handlers (server.js:1-55). It does not call
  the analysis engine.
- The regular expressions are written as explicit predicates:
  - `domainPattern`, as `Pattern.Matches`.
  - The raw-IP test, as `IsDottedQuad`.
  - The scheme test, as `HasScheme`.
  - The TLD match, as `TldOf`.
  - The hyphen count, as `CountChar`.

  `Pattern.MatchesIsLanguage` and `Analyzer.TldOfIsTheMatch` tie the first and
  the fourth to the language the expression describes.
- `UrlParse.ParseUrl` does not model the following steps of the WHATWG URL
  parser. They rewrite the tail, and so `href`, `pathname` and `search`. The
  length, `@` and keyword rules read those, so the model's score and tier can
  differ from the program's on such inputs. Take `example.com/login/..`: the
  program removes the dot segments, so `pathname` is `/` and no keyword occurs.
  It scores 2, "Likely Safe". The model keeps `/login/..` as the path, so the
  keyword bonus adds 2: it scores 4, "Suspicious". The unmodelled steps are:
  - percent-encoding of the tail, and therefore `href.length` for tails with
    spaces or non-ASCII characters;
  - removal of `.`/`..` path segments;
  - backslashes;
  - removal of tab and newline characters;
  - IDNA processing of `xn--` labels, which can also reject a host;
  - the empty-query and fragment edge cases beyond `search`.
- `Text.Lower` lower-cases ASCII letters only. The hostname it is applied to holds
  only ASCII letters, digits, `-` and `.`, because the pattern admits nothing else.
- `Analyzer.AnalyzeUrl`: the exception `new URL` throws is the outcome `Threw`.
  The model does not carry the exception's type or message.
- `Analyzer.AnalyzeUrl`: each `if` block of the rules is one `Apply…Rule` method
  instead of being written inline.

## Findings

| source | as written | input that shows it | evidently intended | confidence | as-written member | corrected member |
|---|---|---|---|---|---|---|
| script.js:121-122 | `new URL(urlString)` runs unguarded on any input that passed `domainPattern`. The pattern allows digit groups up to 999 and ports up to 99999, which the URL parser rejects with a `TypeError`. The error escapes `analyzeUrl` and the submit handler (script.js:93-99), so no result is shown. | `999.1.1.1`. A port above 65535 such as `example.com:99999` does the same, by `UrlParse.ParseUrl`'s contract. | Such an input is reported like any other invalid input: score -1 with the single invalid-input reason, and no exception. | not executed | `Properties.OutOfRangeQuadThrows` (the outcome of `Analyzer.Assess` / `Analyzer.AnalyzeUrl`) | `Analyzer.AssessGuarded`, with its property proved in `Properties.GuardedOutcome` |
