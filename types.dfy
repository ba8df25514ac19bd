/** Values shared by the routing core: the dynamically typed configuration
    values, the inbound SMS record, and the regular-expression engine, which
    the model leaves uninterpreted. */
module Types {

  datatype Option<+T> = None | Some(value: T)

  /** A value of the decoded YAML configuration (`interface{}` in the source):
      a string, a nested map, or anything else (numbers, booleans, lists, nil). */
  datatype Value = Str(s: string) | Map(entries: map<string, Value>) | Other

  /** `m[key].(string)`: the string stored under `key`, or None when the key is
      missing or holds something that is not a string. */
  function StrField(m: map<string, Value>, key: string): Option<string>
  {
    if key in m && m[key].Str? then Some(m[key].s) else None
  }

  /** The JSON body of a push request (SMSRequest in main.go). */
  datatype SMSRequest = SMSRequest(
    secret: string,
    number: string,
    time: string,
    text: string,
    source: string,
    phoneId: string,
    smsId: int,
    timestamp: string)

  /** The regular-expression engine, left uninterpreted: every lemma about the
      model holds for every choice of these three functions.
      `compiles(p)` says whether `regexp.Compile(p)` succeeds; `matches(p, s)`
      whether a compiled `p` matches somewhere in `s`; `findSubmatch(p, s)` is
      `FindStringSubmatch(s)` of a compiled `p` (the whole match followed by
      the capture groups, or the empty slice when nothing matches). */
  datatype Regexp = Regexp(
    compiles: string -> bool,
    matches: (string, string) -> bool,
    findSubmatch: (string, string) -> seq<string>)

  /** Outcome of `regexp.MatchString(pattern, text)`: a match flag, or the
      error returned when the pattern does not compile. */
  datatype MatchResult = Match(matched: bool) | BadPattern

  function MatchString(re: Regexp, pattern: string, text: string): (r: MatchResult)
    ensures r.BadPattern? <==> !re.compiles(pattern)
    ensures r == Match(true) ==> re.matches(pattern, text)
  {
    if re.compiles(pattern) then Match(re.matches(pattern, text)) else BadPattern
  }

  /** A computation that either returns a value or panics (`regexp.MustCompile`
      on a pattern that does not compile); a panic unwinds every caller up to
      the HTTP server's recovery handler. */
  datatype Completion<+T> = Done(value: T) | Panicked
}
