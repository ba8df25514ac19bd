/** The per-rule decision and the push-path authorisation of main.go. */
module Matching {
  import opened Types
  import opened Text

  /** `shouldSendNotification(ruleType, rule, text)`: does one rule fire for
      `text`? A pattern that does not compile makes the rule fail closed. */
  function ShouldSendNotification(re: Regexp, ruleType: string, rule: string, text: string): (r: bool)
    ensures r ==> ruleType == "all" || ruleType == "keyword" || ruleType == "regex"
    ensures r && ruleType == "regex" ==> re.compiles(rule)
  {
    match ruleType
    case "all" => true
    case "keyword" => Contains(text, rule)
    case "regex" =>
      (match MatchString(re, rule, text)
       case Match(matched) => matched
       case BadPattern => false)
    case _ => false
  }

  /** An `all` rule fires for every text, whatever its pattern. */
  lemma AllRuleAlwaysFires(re: Regexp, rule: string, text: string)
    ensures ShouldSendNotification(re, "all", rule, text)
  {
  }

  /** A `keyword` rule fires exactly when its pattern is a contiguous block of
      the text (case-sensitive, no normalisation). */
  lemma KeywordFiresIffSubstring(re: Regexp, rule: string, text: string)
    ensures ShouldSendNotification(re, "keyword", rule, text)
        <==> exists i :: OccursAt(text, rule, i)
  {
    ContainsIffOccurs(text, rule);
  }

  /** In particular an empty keyword fires for every text. */
  lemma EmptyKeywordAlwaysFires(re: Regexp, text: string)
    ensures ShouldSendNotification(re, "keyword", "", text)
  {
    assert OccursAt(text, "", 0);
    KeywordFiresIffSubstring(re, "", text);
  }

  /** A `regex` rule fires exactly when the engine reports a match; a pattern
      that fails to compile yields false rather than an error. */
  lemma RegexFiresIffEngineMatches(re: Regexp, rule: string, text: string)
    ensures ShouldSendNotification(re, "regex", rule, text) <==> re.compiles(rule) && re.matches(rule, text)
    ensures MatchString(re, rule, text).BadPattern? ==> !ShouldSendNotification(re, "regex", rule, text)
  {
  }

  /** Any other rule type, including the wrong case of a known one, never fires. */
  lemma UnknownTypeNeverFires(re: Regexp, ruleType: string, rule: string, text: string)
    requires ruleType != "all" && ruleType != "keyword" && ruleType != "regex"
    ensures !ShouldSendNotification(re, ruleType, rule, text)
  {
  }

  /** The error `validateSecret` returns when authentication fails. */
  const SecretMismatch: string := "密钥验证失败"

  /** `validateSecret(secret)`, with the FORWARD_SECRET environment variable
      passed in as `expected`: None stands for a nil error. */
  function ValidateSecret(expected: string, supplied: string): (err: Option<string>)
    ensures err == None || err == Some(SecretMismatch)
  {
    if expected != "" && supplied != expected then Some(SecretMismatch) else None
  }

  /** Authentication passes exactly when no secret is configured or the
      supplied one equals it. */
  lemma ValidateSecretAcceptsIff(expected: string, supplied: string)
    ensures ValidateSecret(expected, supplied) == None <==> expected == "" || supplied == expected
  {
  }

  /** With a secret configured, it is the only credential accepted. */
  lemma ConfiguredSecretIsTheOnlyKey(expected: string, supplied: string)
    requires expected != ""
    ensures ValidateSecret(expected, supplied) == None <==> supplied == expected
  {
  }
}
