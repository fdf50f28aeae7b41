/** The fallback insight of the LLM client: a fixed analysis chosen by the
    first keyword found in the stage name, in a fixed order of precedence. */
module Insight {

  /** Python's `sub in s` on strings: `sub` occurs in `s` at some position. */
  function Contains(s: string, sub: string): (b: bool)
    ensures |sub| == 0 ==> b
    ensures |sub| > |s| ==> !b
    decreases |s|
  {
    if |sub| > |s| then false
    else s[..|sub|] == sub || Contains(s[1..], sub)
  }

  /** `sub` occurs in `s` starting at position `i`. */
  ghost predicate OccursAt(s: string, sub: string, i: int) {
    0 <= i <= |s| - |sub| && s[i..i + |sub|] == sub
  }

  /** The recursive test agrees with "some slice of `s` is `sub`". */
  lemma {:induction false} ContainsIff(s: string, sub: string)
    ensures Contains(s, sub) <==> exists i :: OccursAt(s, sub, i)
    decreases |s|
  {
    if |sub| <= |s| {
      if s[..|sub|] == sub {
        assert OccursAt(s, sub, 0);
      } else {
        ContainsIff(s[1..], sub);
        if Contains(s[1..], sub) {
          var i :| OccursAt(s[1..], sub, i);
          assert s[i + 1..i + 1 + |sub|] == s[1..][i..i + |sub|];
          assert OccursAt(s, sub, i + 1);
        }
        if exists i :: OccursAt(s, sub, i) {
          var i :| OccursAt(s, sub, i);
          assert i != 0;
          assert s[1..][i - 1..i - 1 + |sub|] == s[i..i + |sub|];
          assert OccursAt(s[1..], sub, i - 1);
        }
      }
    }
  }

  /** The four keys of every insight. */
  const InsightKeys: set<string> := {"reasoning", "goal", "constraint", "defensive_recommendation"}

  function MakeInsight(reasoning: string, goal: string, constraint: string, recommendation: string): (m: map<string, string>)
    ensures m.Keys == InsightKeys
    ensures m["reasoning"] == reasoning && m["goal"] == goal
    ensures m["constraint"] == constraint && m["defensive_recommendation"] == recommendation
  {
    map["reasoning" := reasoning, "goal" := goal, "constraint" := constraint,
        "defensive_recommendation" := recommendation]
  }

  const PhishingInsight: map<string, string> := MakeInsight(
    "Attacker is leveraging social engineering to bypass perimeter firewalls.",
    "Gain Initial Access",
    "Must avoid email filters",
    "Quarantine email and reset user credentials.")

  const ExecutionInsight: map<string, string> := MakeInsight(
    "PowerShell is used to execute code in memory, avoiding disk-based detection.",
    "Execution",
    "Must bypass PowerShell Execution Policy",
    "Enable Constrained Language Mode and Script Block Logging.")

  const DiscoveryInsight: map<string, string> := MakeInsight(
    "Scanning for high-value targets (File Servers, Domain Controllers).",
    "Lateral Movement Planning",
    "Excessive scanning triggers IDS",
    "Isolate host and block SMB (Port 445) traffic.")

  const LateralInsight: map<string, string> := MakeInsight(
    "Moving towards critical infrastructure using compromised credentials.",
    "Domain Dominance",
    "Needs valid admin credentials",
    "Reset KRBTGT account and force immediate re-authentication.")

  const EncryptionInsight: map<string, string> := MakeInsight(
    "Finalizing objective by denying access to critical data.",
    "Financial Extortion",
    "Encryption is CPU intensive",
    "Sever network connection immediately to halt propagation.")

  const DefaultInsight: map<string, string> := MakeInsight(
    "Standard attack progression observed.",
    "Unknown",
    "None detected",
    "Monitor for further anomalies.")

  /** Which of the fixed insights a stage name selects. */
  datatype InsightKind = PhishingKind | ExecutionKind | DiscoveryKind | LateralKind | EncryptionKind | DefaultKind

  /** The keyword tests, in order of precedence: phishing, then command or
      PowerShell, then discovery, lateral and encrypted. */
  function Classify(name: string): (k: InsightKind)
    ensures k == PhishingKind <==> Contains(name, "Phishing")
    ensures k == ExecutionKind <==>
      !Contains(name, "Phishing") && (Contains(name, "Command") || Contains(name, "PowerShell"))
    ensures k == DiscoveryKind <==>
      !Contains(name, "Phishing") && !Contains(name, "Command") && !Contains(name, "PowerShell")
      && Contains(name, "Discovery")
    ensures k == LateralKind <==>
      !Contains(name, "Phishing") && !Contains(name, "Command") && !Contains(name, "PowerShell")
      && !Contains(name, "Discovery") && Contains(name, "Lateral")
    ensures k == EncryptionKind <==>
      !Contains(name, "Phishing") && !Contains(name, "Command") && !Contains(name, "PowerShell")
      && !Contains(name, "Discovery") && !Contains(name, "Lateral") && Contains(name, "Encrypted")
    ensures k == DefaultKind <==>
      !Contains(name, "Phishing") && !Contains(name, "Command") && !Contains(name, "PowerShell")
      && !Contains(name, "Discovery") && !Contains(name, "Lateral") && !Contains(name, "Encrypted")
  {
    if Contains(name, "Phishing") then PhishingKind
    else if Contains(name, "Command") || Contains(name, "PowerShell") then ExecutionKind
    else if Contains(name, "Discovery") then DiscoveryKind
    else if Contains(name, "Lateral") then LateralKind
    else if Contains(name, "Encrypted") then EncryptionKind
    else DefaultKind
  }

  /** The insight text returned for each kind. */
  function InsightOf(k: InsightKind): (m: map<string, string>)
    ensures m.Keys == InsightKeys
    ensures m["defensive_recommendation"] == "Monitor for further anomalies." <==> k == DefaultKind
  {
    match k
    case PhishingKind => PhishingInsight
    case ExecutionKind => ExecutionInsight
    case DiscoveryKind => DiscoveryInsight
    case LateralKind => LateralInsight
    case EncryptionKind => EncryptionInsight
    case DefaultKind => DefaultInsight
  }

  /** The fallback insight for a stage name: always the four keys, and the
      default recommendation exactly when no keyword occurs in the name. */
  function FallbackInsight(name: string): (m: map<string, string>)
    ensures m.Keys == InsightKeys
    ensures m["defensive_recommendation"] == "Monitor for further anomalies." <==> Classify(name) == DefaultKind
  {
    InsightOf(Classify(name))
  }

  /** Some keyword of the list occurs in the name. */
  ghost predicate MentionsAny(name: string, keywords: seq<string>) {
    exists k | k in keywords :: Contains(name, k)
  }

  /** A rule of the reference classifier: any of its keywords selects its kind. */
  datatype Rule = Rule(keywords: seq<string>, kind: InsightKind)

  /** The rule table, in order of precedence. */
  const Rules: seq<Rule> := [
    Rule(["Phishing"], PhishingKind),
    Rule(["Command", "PowerShell"], ExecutionKind),
    Rule(["Discovery"], DiscoveryKind),
    Rule(["Lateral"], LateralKind),
    Rule(["Encrypted"], EncryptionKind)
  ]

  /** The kind of the first rule that matches, or the default. */
  ghost function FirstMatch(rules: seq<Rule>, name: string): InsightKind {
    if rules == [] then DefaultKind
    else if MentionsAny(name, rules[0].keywords) then rules[0].kind
    else FirstMatch(rules[1..], name)
  }

  lemma MentionsOne(name: string, a: string)
    ensures MentionsAny(name, [a]) <==> Contains(name, a)
  {
  }

  lemma MentionsTwo(name: string, a: string, b: string)
    ensures MentionsAny(name, [a, b]) <==> Contains(name, a) || Contains(name, b)
  {
  }

  /** The selector is the first-match classifier over the rule table. */
  lemma ClassifyIsFirstMatch(name: string)
    ensures Classify(name) == FirstMatch(Rules, name)
  {
    var r0 := Rules;
    var r1 := r0[1..];
    var r2 := r1[1..];
    var r3 := r2[1..];
    var r4 := r3[1..];
    assert r4 == [Rule(["Encrypted"], EncryptionKind)] && r4[1..] == [];
    assert r3[0] == Rule(["Lateral"], LateralKind);
    assert r2[0] == Rule(["Discovery"], DiscoveryKind);
    assert r1[0] == Rule(["Command", "PowerShell"], ExecutionKind);
    MentionsOne(name, "Encrypted");
    assert FirstMatch(r4, name) == (if Contains(name, "Encrypted") then EncryptionKind else DefaultKind);
    MentionsOne(name, "Lateral");
    assert FirstMatch(r3, name) == (if Contains(name, "Lateral") then LateralKind else FirstMatch(r4, name));
    MentionsOne(name, "Discovery");
    assert FirstMatch(r2, name) == (if Contains(name, "Discovery") then DiscoveryKind else FirstMatch(r3, name));
    MentionsTwo(name, "Command", "PowerShell");
    assert FirstMatch(r1, name) ==
      (if Contains(name, "Command") || Contains(name, "PowerShell") then ExecutionKind else FirstMatch(r2, name));
    MentionsOne(name, "Phishing");
  }

  /** A name with phishing in it gets the phishing insight whatever else it mentions. */
  lemma PhishingWins(name: string)
    requires Contains(name, "Phishing")
    ensures FallbackInsight(name) == PhishingInsight
  {
  }
}
