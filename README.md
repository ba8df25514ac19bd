# ForwardSMS routing core in Dafny

ForwardSMS receives short messages pushed by a modem daemon (gammu-smsd) over
HTTP, checks each message against operator-defined forwarding rules, and
forwards matching messages to WeChat, Bark, Gotify, email or QQ. This project
models the decision layer between an incoming SMS and the outbound
notification calls, and proves properties of it:

- `types.dfy` (module `Types`): the decoded YAML configuration as a `Value`
  (`Str | Map | Other`), the push request `SMSRequest`, the regular
  expression engine as a record of three function values that every lemma
  quantifies over (whether a pattern compiles, whether it matches, its
  submatches; regex semantics are not modelled), and `Completion`, a result
  that is either a value or a panic.
- `text.dfy` (module `Text`): the Go `strings` functions the core relies on
  (`Contains`, `TrimSpace`), each proved against an independent definition.
- `matching.dfy` (module `Matching`): `shouldSendNotification` and
  `validateSecret` from main.go.
- `codes.dfy` (module `Codes`): the two-stage `extractVerificationCode`,
  including the panic of `regexp.MustCompile` on a pattern that does not
  compile.
- `notify.dfy` (module `Notify`): `sendNotification` as a pure function that
  returns the one adapter call it makes (`Option<Dispatch>`), with the exact
  argument values.
- `payloads.dfy` (module `Payloads`): the Bark request (built by a method
  that updates the record under a condition, as the source does, or panics),
  the Gotify post and the SMTP submission, with round-trip lemmas for the
  address and for the message's headers and body.
- `routing.dfy` (module `Routing`): the `processSMS` loop over the rule
  table as a method, specified order-independently (Go map iteration has no
  order), which a panicking Bark call cuts short, and the class `Service`
  holding the rule table and `lastSMSID`, with `smsHandler` and the status
  counters.

Notes on the source as it stands:

- `processSMS` calls `sendNotification` with five arguments although it takes
  six (the last is the `SMSRequest`), and `smsHandler` calls `processSMS` with
  three while the test calls it with four; the files do not build as they are.
  The model threads the request through `ProcessSMS` to `SendNotification`,
  as the test's call suggests, and passes the rule's pattern (`c["rule"]`), not
  its name, as the `rule` argument, as the call site does.
- The QQ branch passes `sendQQPush(token, cqq, msg)` the formatted message as
  `token` and the configured token as `msg` (lemma `QQArgumentsSwapped`).
- main.go and notification.go contain no polling path and no persisted
  cursor; the only cursor is the global `lastSMSID`, overwritten by every
  accepted push with no maximum taken.
- Bark requests always carry `IsArchive = 1`, the Bark title is the sender
  alone, and the email subject is `短信通知`.
- Both code-extraction patterns of `extractVerificationCode` use look-ahead
  (`(?!` and `(?=`), which Go's RE2 syntax does not accept, so
  `regexp.MustCompile` panics on them. The Bark adapter calls the extraction
  whenever the body matches the cue words, and the adapters run inside the
  routing loop, so such a push ends `processSMS` early and gin's Recovery
  middleware (main.go:104) answers 500, after `lastSMSID` has been set. The
  model keeps "does this pattern compile" as part of the engine, so the
  staging the code spells out and the panic it causes in Go are both
  stated (`Codes.ExtractionAlwaysPanicsInGo`, `Routing.OtpPushPanicsInGo`).

## Model

| member | source | states |
|---|---|---|
| `Text.Contains` | forwardsms/main.go:307 | `strings.Contains` finds the empty pattern in every text and never a pattern longer than the text |
| `Text.ContainsIffOccurs` | forwardsms/main.go:307 | `strings.Contains` (a left-to-right scan) holds exactly when the pattern occurs as a contiguous block at some index |
| `Text.TrimSpace` | forwardsms/notification.go:198 | the result of `strings.TrimSpace` has no leading or trailing space, and the input is the result wrapped in two runs of Unicode spaces |
| `Text.TrimSpaceIdempotent` | forwardsms/notification.go:209 | trimming twice gives the same as trimming once |
| `Matching.ShouldSendNotification` | forwardsms/main.go:302-319 | only the types `all`, `keyword` and `regex` can fire, and a `regex` rule fires only when its pattern compiles |
| `Matching.AllRuleAlwaysFires` | forwardsms/main.go:304-305 | a rule of type `all` fires for every text and every pattern |
| `Matching.KeywordFiresIffSubstring` | forwardsms/main.go:306-307 | a `keyword` rule fires exactly when its pattern occurs as a contiguous block of the text |
| `Matching.EmptyKeywordAlwaysFires` | forwardsms/main.go:307 | an empty keyword fires for every text |
| `Matching.RegexFiresIffEngineMatches` | forwardsms/main.go:308-314 | a `regex` rule fires exactly when its pattern compiles and matches the text; a pattern that does not compile yields false, not an error |
| `Matching.UnknownTypeNeverFires` | forwardsms/main.go:315-317 | any type other than `all`, `keyword`, `regex` never fires |
| `Matching.ValidateSecret` | forwardsms/main.go:257-263 | the result is nil or the one authentication error |
| `Matching.ValidateSecretAcceptsIff` | forwardsms/main.go:259-262 | authentication passes iff no secret is configured or the supplied secret equals it |
| `Matching.ConfiguredSecretIsTheOnlyKey` | forwardsms/main.go:259 | with a secret configured, exactly that secret is accepted |
| `Codes.StageCode` | forwardsms/notification.go:197-201 | a stage yields a trimmed code, and "" when the submatch slice does not reach the group |
| `Codes.Stage1` | forwardsms/notification.go:194-202 | stage 1 yields a trimmed code, and "" when the match has no group 7 |
| `Codes.Stage2` | forwardsms/notification.go:205-213 | stage 2 yields a trimmed code, and "" when the match has no group 1 |
| `Codes.ExtractVerificationCode` | forwardsms/notification.go:192-216 | an extraction that returns gives a whitespace-trimmed code and has compiled stage 1, and stage 2 as well when the code is "" |
| `Codes.ExtractionPanicsIff` | forwardsms/notification.go:194-206 | the extraction panics exactly when stage 1 does not compile, or stage 1 finds nothing and stage 2 does not compile |
| `Codes.ExtractionAlwaysPanicsInGo` | forwardsms/notification.go:194-195 | with an engine that rejects look-ahead, as Go's does, the extraction panics on every input |
| `Codes.StageOneWins` | forwardsms/notification.go:196-202 | once stage 1 compiles, a non-empty stage-1 code is the result, whatever stage 2 says |
| `Codes.StageTwoIsTheFallback` | forwardsms/notification.go:204-213 | when stage 1 compiles and yields nothing, the result is stage 2's code if stage 2 compiles, and a panic otherwise |
| `Codes.NoCodeIffBothStagesEmpty` | forwardsms/notification.go:192-216 | the result is "" without a panic exactly when both patterns compile and both stages yield "" |
| `Codes.CodeComesFromACaptureGroup` | forwardsms/notification.go:197-212 | a found code is group 7 of stage 1 or group 1 of stage 2 with surrounding whitespace removed |
| `Notify.RuleMessage` | forwardsms/notification.go:18 | the long message starts with the `触发规则: ` line naming the rule and ends with the SMS text and the `Source` line |
| `Notify.PhoneMessage` | forwardsms/notification.go:19 | the short message starts with the text on its own line and ends with the source on its own line, with two more fields and three newlines between |
| `Notify.SendNotification` | forwardsms/notification.go:17-64 | an adapter call is made only for the channel named by the `notify` tag |
| `Notify.NoTagNoDispatch` | forwardsms/notification.go:21-25 | when `notify` is not a string no adapter is called |
| `Notify.DispatchIffFieldsPresent` | forwardsms/notification.go:27-63 | an adapter is called iff the tag is wechat, bark, gotify, email or qq and every field that channel needs (url; url; url+token; six SMTP fields; qq+token) is a string; otherwise none |
| `Notify.ChannelIndependentOfMessage` | forwardsms/notification.go:27-63 | whether and which adapter is called depends on the rule's configuration only, never on the message |
| `Notify.PushChannelsGetPhoneMessage` | forwardsms/notification.go:19-44 | Bark and Gotify get the sender as title and `text + "\n" + PhoneID + "\n" + Time + "\n" + Source` as body; Gotify gets the configured token |
| `Notify.EmailGetsRuleMessage` | forwardsms/notification.go:45-54 | email gets subject `短信通知`, the rule-labelled message as body, and the configured recipient and host |
| `Notify.QQArgumentsSwapped` | forwardsms/notification.go:55-60 | `sendQQPush` receives the formatted message as `token`, the QQ number as `cqq` and the configured token as `msg` |
| `Payloads.CueMatches` | forwardsms/notification.go:111-112 | the cue words match only when their pattern compiles, and exactly when `regexp.MatchString` reports a match |
| `Payloads.BuildBarkRequest` | forwardsms/notification.go:103-120 | `sendBark` panics exactly when the cue words match and the extraction panics; otherwise the Bark request has the given title and body and `IsArchive = 1`, `Copy` is the extracted code with `AutoCopy = 1` iff the cue words match and the code is non-empty, otherwise "" and 0; `AutoCopy = 1` iff `Copy` is non-empty, and `Copy` is trimmed |
| `Payloads.BarkNeverCopiesInGo` | forwardsms/notification.go:111-119 | with an engine that rejects look-ahead, a Bark push panics exactly when its body matches the cue words, so the quick-copy branch is never taken |
| `Payloads.BuildGotifyPost` | forwardsms/notification.go:152-160 | the Gotify message has priority 9 and is posted to the server URL followed by `/message?token=` and the token, both recoverable from the target |
| `Payloads.BuildSubmission` | forwardsms/notification.go:177-183 | PLAIN auth with empty identity, the given user, password and host; the envelope is from `from` to the single recipient `to` |
| `Payloads.SubmissionAddressRoundTrip` | forwardsms/notification.go:183 | the SMTP address is `host:port`: splitting at its last colon gives back the host and port when the port has no colon |
| `Payloads.EmailMessage` | forwardsms/notification.go:179-182 | the message starts with the `To:` header line and ends with the body |
| `Payloads.SubmissionMessageRoundTrip` | forwardsms/notification.go:179-182 | splitting the message at its first empty line gives exactly the header block `To: <to>`, `Subject: <subject>`, `Content-Type: text/plain; charset=UTF-8` (CRLF-separated) and the body, when the recipient and subject hold no carriage return |
| `Routing.WellFormed` | forwardsms/main.go:274-290 | an entry that is not skipped is a map holding a `rule` and a `type` |
| `Routing.RunAdapter` | forwardsms/notification.go:103-120 | running the chosen adapter panics exactly when it is a Bark call whose body trips the code extraction |
| `Routing.RouteEntry` | forwardsms/main.go:274-296 | one iteration calls `sendNotification` exactly when the entry is well formed and its rule matches, with that entry's arguments, and panics exactly when that call's adapter panics |
| `Routing.ProcessSMS` | forwardsms/main.go:265-300 | every call made is for a firing rule, once, with its entry's arguments; the run panics exactly when some firing rule's adapter panics, whatever the map order, and then stops at the first panicking call; otherwise exactly the firing rules are called and the error is nil |
| `Routing.CompleteRunWithoutPanic` | forwardsms/main.go:273-297 | a run that called every firing rule without a panic shows that no firing rule panics |
| `Routing.OneCallPerFiringRule` | forwardsms/main.go:273-297 | in a run that completes without a panic, the number of calls equals the number of firing rules |
| `Routing.MalformedEntryNeverRouted` | forwardsms/main.go:273-291 | an entry that is not a map, or whose `rule` or `type` is not a string, is never routed, whether or not the run is cut short by a panic |
| `Routing.AllRuleAlwaysRouted` | forwardsms/main.go:292-296 | in a run that completes without a panic, a well-formed `all` rule is routed for every text, with its entry's call |
| `Routing.OtherRulesUnaffected` | forwardsms/main.go:273-297 | changing or adding one entry, even a broken one, does not change whether any other rule fires |
| `Routing.FiredRulesOfUnion` | forwardsms/main.go:273-297 | the rules firing in a union of disjoint tables are those firing in each table |
| `Routing.KeywordBarkScenario` | forwardsms/main.go:292-296 | in a run that completes without a panic, one keyword rule `验证码` with a Bark channel and the text `您的验证码是654321` give exactly one call, to Bark, with the sender as title and the short form as body |
| `Routing.Service.constructor` | forwardsms/main.go:16-21 | the service starts with the given rule table and `lastSMSID = 0` |
| `Routing.Service.SmsHandler` | forwardsms/main.go:214-255 | a bind failure or a secret mismatch leaves `lastSMSID` unchanged and routes nothing; an accepted request sets `lastSMSID` to its id, smaller or not, and routes it; it succeeds, having called exactly the firing rules, unless some firing rule's adapter panics, in which case the recovery middleware answers 500 |
| `Routing.Service.CurrentStatus` | forwardsms/main.go:172-181 | the status reports `lastSMSID` and the number of rule-table entries, malformed ones included |
| `Routing.CallsBoundedByRuleCount` | forwardsms/main.go:173 | a routing pass, complete or cut short by a panic, makes no more calls than the status page's rule count |
| `Routing.LastIdFollowsLatestPush` | forwardsms/main.go:232 | after two accepted pushes `lastSMSID` is the second id, even when it is smaller than the first and even when routing panicked |
| `Routing.OtpPushPanicsInGo` | forwardsms/notification.go:111-115 | with Go's engine, the keyword rule `验证码` with a Bark channel and the text `您的验证码是654321` make a firing rule's adapter panic, so `SmsHandler` answers with the recovery middleware's 500 |

## Left out

- HTTP plumbing: Gin routing, CORS middleware, `healthHandler`, `testHandler`, `startHTTPServer`, `initGin` and the JSON response bodies; `smsHandler`'s reply is reduced to its status (`Response`).
- JSON binding: `ShouldBindJSON` is a parameter (`None` when it fails); the error text in the 400 reply is not modelled.
- Configuration loading (`initConfig`, viper/YAML): the rule table is given as a `map<string, Value>`.
- The `FORWARD_SECRET` environment variable is a parameter of `SmsHandler` and `ValidateSecret`.
- Regular-expression semantics (`regexp.Compile`, `MatchString`, `FindStringSubmatch`): the engine is an uninterpreted parameter and only the combination and staging logic is proved. That Go rejects the look-ahead of the extraction patterns is the premise `RejectsLookahead`, and that the cue words match a given body is a premise too; neither is derived from the pattern text.
- Panics other than `regexp.MustCompile`'s, and what a panic leaves half done inside an adapter: a panicking Bark call is modelled as ending the routing loop before any request is sent.
- The sends themselves (`http.Client.Do`, `smtp.SendMail`, `json.Marshal`, reading responses) and all logging: network and foreign calls; only the argument values handed to them are modelled.
- `sendWechat`'s JSON text and `sendQQPush`'s post body and URL: formatting of an adapter's wire payload outside the decision layer; the WeChat and QQ dispatches carry the exact arguments.
- The QQ message text: `fmt.Sprintf("短信通知\n%%", message)` has no verb for `message`, so it is kept opaque as `QQNotice(message)`.
- Concurrent pushes writing `lastSMSID`: the model is sequential.
- `SMSRequest.SMSID` is a Go `int`; the model uses unbounded integers (an out-of-range id fails JSON binding in the source, which the bind parameter covers).
- Strings are sequences of code points, while Go's `strings` functions work on UTF-8 bytes; for valid UTF-8 text the results agree.
