/** `classifyScore` of script.js: the three risk tiers of a score. */
module Classifier {

  datatype Tier = Safe | Warning | Danger

  datatype Classification = Classification(level: Tier, caption: string)

  function Label(t: Tier): string {
    match t
    case Safe => "Likely Safe"
    case Warning => "Suspicious"
    case Danger => "Potential Phishing"
  }

  /** Ordinal of a tier: safe below warning below danger. */
  function Severity(t: Tier): nat {
    match t
    case Safe => 0
    case Warning => 1
    case Danger => 2
  }

  /** Total: every integer falls in exactly one tier, with the label of that tier. */
  function ClassifyScore(score: int): (c: Classification)
    ensures c.caption == Label(c.level)
    ensures c.level == Safe <==> score <= 3
    ensures c.level == Warning <==> 3 < score <= 8
    ensures c.level == Danger <==> 8 < score
  {
    if score <= 3 then Classification(Safe, "Likely Safe")
    else if score <= 8 then Classification(Warning, "Suspicious")
    else Classification(Danger, "Potential Phishing")
  }

  /** A higher score never lands in a lower tier. */
  lemma ClassificationMonotone(a: int, b: int)
    requires a <= b
    ensures Severity(ClassifyScore(a).level) <= Severity(ClassifyScore(b).level)
  {
  }
}
