/** The four configuration tables of script.js, passed to the analyzer as one
    value so that every property below holds for any tables, and the tables
    the program ships with. */
module Tables {

  datatype Config = Config(
    brands: seq<string>,          // KNOWN_BRANDS
    trusted: seq<string>,         // TRUSTED_DOMAINS
    suspiciousTlds: seq<string>,  // SUSPICIOUS_TLDS, each with its leading dot
    keywords: seq<string>)        // SUSPICIOUS_KEYWORDS

  const KnownBrands: seq<string> := [
    "google.com", "facebook.com", "instagram.com", "twitter.com", "x.com",
    "paypal.com", "icicibank.com", "hdfcbank.com", "sbi.co.in",
    "amazon.in", "flipkart.com", "paytm.com"
  ]

  const TrustedDomains: seq<string> := [
    "google.com", "accounts.google.com", "facebook.com", "instagram.com",
    "amazon.in", "paypal.com", "sbi.co.in", "icicibank.com", "hdfcbank.com"
  ]

  const SuspiciousTlds: seq<string> := [
    ".zip", ".xyz", ".top", ".info", ".work", ".rug", ".gq", ".loan"
  ]

  const SuspiciousKeywords: seq<string> := [
    "login", "verify", "update", "secure", "account",
    "confirm", "signin", "support", "security", "billing"
  ]

  const Shipped: Config := Config(KnownBrands, TrustedDomains, SuspiciousTlds, SuspiciousKeywords)

  predicate NoDuplicates<T(==)>(s: seq<T>) {
    forall i, j :: 0 <= i < j < |s| ==> s[i] != s[j]
  }
}
