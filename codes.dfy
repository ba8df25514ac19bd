/** `extractVerificationCode` of notification.go: two extraction stages, each
    a regular expression left to the engine, combined in a fixed order. */
module Codes {
  import opened Types
  import opened Text

  /** Stage 1: a cue word ("验证码", "code", "Verification", ...) followed by
      the code; group 7 holds the code. */
  const Stage1Pattern: string := @"(.*)((代|授权|验证|动态|校验)码|[【\[].[】\]]|[Cc][Oo][Dd][Ee]|[Vv]erification\s?([Cc]ode)?)\s?(G-|<#>)?([:：\s是为]|[Ii][Ss]){0,3}[\(（\[【{「]?(([0-9\s]{4,7})|([\dA-Za-z]{5,6})(?!([Vv]erification)?([Cc][Oo][Dd][Ee])|:))[」}】\]]?[）\)]?(?=([^0-9a-zA-Z]|$))(.*)"
  const Stage1Group: nat := 7

  /** Stage 2: a number that a cue word follows later in the text; group 1
      holds the number. */
  const Stage2Pattern: string := @"\D*[\(（\[【{「]?([0-9]{3}\s?[0-9]{1,3})[」}】\]]?[）\)]?(?=.*((代|授权|验证|动态|校验)码|[【\[].[】\]]|[Cc][Oo][Dd][Ee]|[Vv]erification\s?([Cc]ode)?))(.*)"
  const Stage2Group: nat := 1

  /** What one stage yields: its capture group, trimmed, when the submatch
      slice is long enough to hold it, and "" otherwise. */
  function StageCode(groups: seq<string>, group: nat): (code: string)
    ensures IsTrimmed(code)
    ensures |groups| <= group ==> code == ""
  {
    if |groups| > group then TrimSpace(groups[group]) else ""
  }

  /** Stage 1's code: group 7 of the first match, trimmed, or "". */
  function Stage1(re: Regexp, content: string): (code: string)
    ensures IsTrimmed(code)
    ensures |re.findSubmatch(Stage1Pattern, content)| <= Stage1Group ==> code == ""
  {
    StageCode(re.findSubmatch(Stage1Pattern, content), Stage1Group)
  }

  /** Stage 2's code: group 1 of the first match, trimmed, or "". */
  function Stage2(re: Regexp, content: string): (code: string)
    ensures IsTrimmed(code)
    ensures |re.findSubmatch(Stage2Pattern, content)| <= Stage2Group ==> code == ""
  {
    StageCode(re.findSubmatch(Stage2Pattern, content), Stage2Group)
  }

  /** `extractVerificationCode(content)`: `regexp.MustCompile` of stage 1
      (a panic when the pattern does not compile), its code if non-empty;
      otherwise `MustCompile` of stage 2 (likewise), its code if non-empty,
      else "". */
  function ExtractVerificationCode(re: Regexp, content: string): (r: Completion<string>)
    ensures r.Done? ==> IsTrimmed(r.value) && re.compiles(Stage1Pattern)
    ensures r.Done? && r.value == "" ==> re.compiles(Stage2Pattern)
  {
    if !re.compiles(Stage1Pattern) then Panicked
    else
      var code1 := Stage1(re, content);
      if code1 != "" then Done(code1)
      else if !re.compiles(Stage2Pattern) then Panicked
      else
        var code2 := Stage2(re, content);
        Done(code2)
  }

  /** The extraction panics exactly when stage 1 does not compile, or stage 1
      finds nothing and stage 2 does not compile. */
  lemma ExtractionPanicsIff(re: Regexp, content: string)
    ensures ExtractVerificationCode(re, content).Panicked?
        <==> !re.compiles(Stage1Pattern) || (Stage1(re, content) == "" && !re.compiles(Stage2Pattern))
  {
  }

  /** Go's `regexp` package accepts RE2 syntax only, which has no look-ahead:
      `(?!` in stage 1 and `(?=` in both stages make the patterns fail to
      compile. */
  predicate RejectsLookahead(re: Regexp)
  {
    !re.compiles(Stage1Pattern) && !re.compiles(Stage2Pattern)
  }

  /** With Go's engine the extraction therefore panics on every input. */
  lemma ExtractionAlwaysPanicsInGo(re: Regexp, content: string)
    requires RejectsLookahead(re)
    ensures ExtractVerificationCode(re, content) == Panicked
  {
  }

  /** A non-empty stage-1 code wins, whatever stage 2 would say. */
  lemma StageOneWins(re: Regexp, content: string)
    requires re.compiles(Stage1Pattern) && Stage1(re, content) != ""
    ensures ExtractVerificationCode(re, content) == Done(Stage1(re, content))
  {
  }

  /** Stage 2 is compiled and consulted only when stage 1 yields nothing, and
      then decides. */
  lemma StageTwoIsTheFallback(re: Regexp, content: string)
    requires re.compiles(Stage1Pattern) && Stage1(re, content) == ""
    ensures ExtractVerificationCode(re, content)
         == if re.compiles(Stage2Pattern) then Done(Stage2(re, content)) else Panicked
  {
  }

  /** No code is found, without a panic, exactly when both patterns compile
      and both stages come up empty. */
  lemma NoCodeIffBothStagesEmpty(re: Regexp, content: string)
    ensures ExtractVerificationCode(re, content) == Done("")
        <==> re.compiles(Stage1Pattern) && re.compiles(Stage2Pattern)
             && Stage1(re, content) == "" && Stage2(re, content) == ""
  {
  }

  /** A code that is found is a trimmed block of one of the two capture groups:
      the group is the code wrapped in whitespace. */
  lemma CodeComesFromACaptureGroup(re: Regexp, content: string)
    requires ExtractVerificationCode(re, content).Done? && ExtractVerificationCode(re, content).value != ""
    ensures var code := ExtractVerificationCode(re, content).value;
            var m1, m2 := re.findSubmatch(Stage1Pattern, content), re.findSubmatch(Stage2Pattern, content);
            (|m1| > Stage1Group && WrappedInSpace(m1[Stage1Group], code))
            || (|m2| > Stage2Group && WrappedInSpace(m2[Stage2Group], code))
  {
  }

  /** `group` is `code` with runs of whitespace on either side. */
  ghost predicate WrappedInSpace(group: string, code: string)
  {
    exists i, j :: 0 <= i <= j <= |group| && code == group[i..j] && AllSpace(group[..i]) && AllSpace(group[j..])
  }
}
