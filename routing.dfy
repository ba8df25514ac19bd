/** The routing loop `processSMS` and the push handler of main.go. The rule
    table is the decoded `forward` configuration: rule name to a dynamically
    typed value. Go iterates a map in no fixed order, so the routing is
    specified by which rules were called, not in what order. A Bark call
    whose code extraction panics unwinds the loop and the handler. */
module Routing {
  import opened Types
  import opened Matching
  import opened Notify
  import opened Text
  import opened Codes
  import opened Payloads

  /** One `sendNotification` call made while routing: the rule it was made
      for and the adapter call it led to (None: no adapter was called). */
  datatype Call = Call(name: string, dispatch: Option<Dispatch>)

  /** An entry the loop does not skip: a map whose `rule` and `type` are strings. */
  predicate WellFormed(v: Value)
    ensures WellFormed(v) ==> v.Map? && "rule" in v.entries && "type" in v.entries
  {
    v.Map? && StrField(v.entries, "rule").Some? && StrField(v.entries, "type").Some?
  }

  /** The entry is well formed and its rule matches `text`. */
  predicate Fires(re: Regexp, v: Value, text: string)
  {
    WellFormed(v)
    && ShouldSendNotification(re, StrField(v.entries, "type").value, StrField(v.entries, "rule").value, text)
  }

  /** The names of the rules that fire for `text`. */
  function FiredRules(config: map<string, Value>, re: Regexp, text: string): set<string>
  {
    set name | name in config && Fires(re, config[name], text)
  }

  /** The call made for a well-formed entry; its `rule` argument is the
      entry's pattern, not its name. */
  function Outcome(v: Value, sender: string, time: string, text: string, req: SMSRequest): Option<Dispatch>
    requires WellFormed(v)
  {
    SendNotification(v.entries, sender, time, text, StrField(v.entries, "rule").value, req)
  }

  function Names(calls: seq<Call>): set<string>
  {
    set i | 0 <= i < |calls| :: calls[i].name
  }

  predicate Distinct(calls: seq<Call>)
  {
    forall i, j :: 0 <= i < j < |calls| ==> calls[i].name != calls[j].name
  }

  /** Every call in `calls` was made by `processSMS`: one per rule, each for a
      rule that fires and with the arguments that rule's entry gives. */
  predicate RoutesFaithfully(calls: seq<Call>, config: map<string, Value>, re: Regexp,
                             sender: string, time: string, text: string, req: SMSRequest)
  {
    && Distinct(calls)
    && Names(calls) <= FiredRules(config, re, text)
    && forall i :: 0 <= i < |calls| ==>
         calls[i].name in config && WellFormed(config[calls[i].name])
         && calls[i].dispatch == Outcome(config[calls[i].name], sender, time, text, req)
  }

  /** `calls` is a complete run of `processSMS`: one call for each rule that
      fires and for no other, each with the arguments that rule's entry gives. */
  predicate RoutesExactly(calls: seq<Call>, config: map<string, Value>, re: Regexp,
                          sender: string, time: string, text: string, req: SMSRequest)
  {
    RoutesFaithfully(calls, config, re, sender, time, text, req)
    && Names(calls) == FiredRules(config, re, text)
  }

  /** The adapter call panics: a Bark push whose body trips the code extraction. */
  predicate Panics(re: Regexp, d: Option<Dispatch>)
  {
    d.Some? && d.value.Bark? && BarkPanics(re, d.value.body)
  }

  /** Some rule that fires leads to a panicking adapter call. */
  ghost predicate SomeRulePanics(config: map<string, Value>, re: Regexp,
                                 sender: string, time: string, text: string, req: SMSRequest)
  {
    exists name :: name in config && Fires(re, config[name], text)
                   && Panics(re, Outcome(config[name], sender, time, text, req))
  }

  lemma NamesAppend(calls: seq<Call>, c: Call)
    ensures Names(calls + [c]) == Names(calls) + {c.name}
  {
    var ext := calls + [c];
    assert ext[|calls|].name == c.name;
    forall n | n in Names(calls) ensures n in Names(ext) {
      var i :| 0 <= i < |calls| && calls[i].name == n;
      assert ext[i].name == n;
    }
  }

  /** Runs the adapter a dispatch names, as far as the model follows it: only
      the Bark request is built, and building it may panic. */
  method RunAdapter(re: Regexp, d: Option<Dispatch>) returns (panicked: bool)
    ensures panicked <==> Panics(re, d)
  {
    panicked := false;
    if d.Some? && d.value.Bark? {
      var sent := BuildBarkRequest(re, d.value.title, d.value.body);
      panicked := sent.Panicked?;
    }
  }

  /** One iteration of `processSMS`'s loop, for the entry `cfg` under `name`:
      skip it unless it is a map whose `rule` and `type` are strings; if the
      rule matches, call `sendNotification` and run the adapter it picks.
      The call is made exactly when the entry fires, and the adapter panics
      exactly when that call panics. */
  method RouteEntry(re: Regexp, name: string, cfg: Value, sender: string, time: string,
                    text: string, req: SMSRequest) returns (call: Option<Call>, panicked: bool)
    ensures call.Some? <==> Fires(re, cfg, text)
    ensures call.Some? ==> call.value == Call(name, Outcome(cfg, sender, time, text, req))
    ensures panicked <==> call.Some? && Panics(re, call.value.dispatch)
  {
    call, panicked := None, false;
    if !cfg.Map? {
      return;
    }
    var c := cfg.entries;
    var rule := StrField(c, "rule");
    if rule.None? {
      return;
    }
    var ruleType := StrField(c, "type");
    if ruleType.None? {
      return;
    }
    if ShouldSendNotification(re, ruleType.value, rule.value, text) {
      var d := SendNotification(c, sender, time, text, rule.value, req);
      call := Some(Call(name, d));
      panicked := RunAdapter(re, d);
    }
  }

  /** `processSMS(sender, time, text)` over the rule table `config`, with the
      request threaded through to `sendNotification`. Every entry is visited
      once in an unspecified order; malformed entries are skipped and the
      rest of the table is still routed. Each adapter runs before the next
      entry is visited, so a panicking Bark call ends the loop; otherwise the
      error result is nil. Whether it panics does not depend on the order. */
  method ProcessSMS(re: Regexp, config: map<string, Value>, sender: string, time: string,
                    text: string, req: SMSRequest) returns (calls: seq<Call>, result: Completion<Option<string>>)
    ensures RoutesFaithfully(calls, config, re, sender, time, text, req)
    ensures result.Done? <==> !SomeRulePanics(config, re, sender, time, text, req)
    ensures result.Done? ==> result.value == None && Names(calls) == FiredRules(config, re, text)
    ensures result.Panicked? ==> calls != [] && Panics(re, calls[|calls| - 1].dispatch)
    ensures forall i :: 0 <= i < |calls| - 1 ==> !Panics(re, calls[i].dispatch)
  {
    calls := [];
    var pending := config.Keys;
    while pending != {}
      invariant pending <= config.Keys
      invariant Distinct(calls)
      invariant forall i :: 0 <= i < |calls| ==> calls[i].name !in pending
      invariant Names(calls) == set name | name in config && name !in pending && Fires(re, config[name], text)
      invariant forall i :: 0 <= i < |calls| ==>
                  calls[i].name in config && WellFormed(config[calls[i].name])
                  && calls[i].dispatch == Outcome(config[calls[i].name], sender, time, text, req)
      invariant forall i :: 0 <= i < |calls| ==> !Panics(re, calls[i].dispatch)
      decreases pending
    {
      var name :| name in pending;
      pending := pending - {name};
      var call, panicked := RouteEntry(re, name, config[name], sender, time, text, req);
      if call.Some? {
        NamesAppend(calls, call.value);
        calls := calls + [call.value];
      }
      if panicked {
        PanickingRuleWitnesses(config, re, sender, time, text, req, name);
        result := Panicked;
        return;
      }
    }
    CompleteRunWithoutPanic(calls, config, re, sender, time, text, req);
    result := Done(None);
  }

  lemma PanickingRuleWitnesses(config: map<string, Value>, re: Regexp,
                               sender: string, time: string, text: string, req: SMSRequest, name: string)
    requires name in config && Fires(re, config[name], text)
    requires Panics(re, Outcome(config[name], sender, time, text, req))
    ensures SomeRulePanics(config, re, sender, time, text, req)
  {
  }

  /** When every firing rule has been called and no call panicked, no firing
      rule panics. */
  lemma CompleteRunWithoutPanic(calls: seq<Call>, config: map<string, Value>, re: Regexp,
                                sender: string, time: string, text: string, req: SMSRequest)
    requires RoutesExactly(calls, config, re, sender, time, text, req)
    requires forall i :: 0 <= i < |calls| ==> !Panics(re, calls[i].dispatch)
    ensures !SomeRulePanics(config, re, sender, time, text, req)
  {
    forall name | name in config && Fires(re, config[name], text)
      ensures !Panics(re, Outcome(config[name], sender, time, text, req))
    {
      assert name in Names(calls);
      var i :| 0 <= i < |calls| && calls[i].name == name;
    }
  }

  /** Distinct names: the calls are as many as the rules they were made for. */
  lemma {:induction false} DistinctNamesCount(calls: seq<Call>)
    requires Distinct(calls)
    ensures |Names(calls)| == |calls|
  {
    if calls != [] {
      var init := calls[..|calls| - 1];
      assert calls == init + [calls[|calls| - 1]];
      assert Distinct(init);
      DistinctNamesCount(init);
      NamesAppend(init, calls[|calls| - 1]);
      assert calls[|calls| - 1].name !in Names(init);
    }
  }

  /** In a run that completes, `sendNotification` is called exactly once per
      firing rule. */
  lemma OneCallPerFiringRule(calls: seq<Call>, config: map<string, Value>, re: Regexp,
                             sender: string, time: string, text: string, req: SMSRequest)
    requires RoutesExactly(calls, config, re, sender, time, text, req)
    ensures |calls| == |FiredRules(config, re, text)|
  {
    DistinctNamesCount(calls);
  }

  /** An entry that is not a map, or whose `rule` or `type` is not a string, is
      never routed, whatever the text, in a complete run or one a panic cut
      short. */
  lemma MalformedEntryNeverRouted(calls: seq<Call>, config: map<string, Value>, re: Regexp,
                                  sender: string, time: string, text: string, req: SMSRequest, name: string)
    requires RoutesFaithfully(calls, config, re, sender, time, text, req)
    requires name in config && !WellFormed(config[name])
    ensures forall i :: 0 <= i < |calls| ==> calls[i].name != name
  {
  }

  /** In a run that completes, a well-formed `all` rule is routed for every
      text, with its entry's call. */
  lemma AllRuleAlwaysRouted(calls: seq<Call>, config: map<string, Value>, re: Regexp,
                            sender: string, time: string, text: string, req: SMSRequest, name: string)
    requires RoutesExactly(calls, config, re, sender, time, text, req)
    requires name in config && WellFormed(config[name]) && StrField(config[name].entries, "type") == Some("all")
    ensures exists i :: 0 <= i < |calls| && calls[i] == Call(name, Outcome(config[name], sender, time, text, req))
  {
    assert name in FiredRules(config, re, text);
    assert name in Names(calls);
    var i :| 0 <= i < |calls| && calls[i].name == name;
    assert calls[i] == Call(name, Outcome(config[name], sender, time, text, req));
  }

  /** Rules are independent: replacing or adding one entry, however broken,
      leaves the routing of every other rule as it was. */
  lemma OtherRulesUnaffected(config: map<string, Value>, re: Regexp, text: string, name: string, v: Value)
    ensures FiredRules(config[name := v], re, text) - {name} == FiredRules(config, re, text) - {name}
  {
  }

  /** Each rule is decided on its own entry: the rules that fire in two
      disjoint tables together are the rules that fire in their union. */
  lemma FiredRulesOfUnion(a: map<string, Value>, b: map<string, Value>, re: Regexp, text: string)
    requires a.Keys !! b.Keys
    ensures FiredRules(a + b, re, text) == FiredRules(a, re, text) + FiredRules(b, re, text)
  {
  }

  /** The push handler's reply: HTTP 400, 401, 500 from the handler, 500
      written by the recovery middleware after a panic, or 200. */
  datatype Response = BadRequest | Unauthorized | ServerError | Recovered | Success

  /** What `statusHandler` reports besides the status string and the clock. */
  datatype Status = Status(lastProcessedId: int, ruleCount: nat)

  /** The service's process-wide state: the rule table, loaded once and only
      read afterwards, and `lastSMSID`, overwritten by every accepted push. */
  class Service {
    const config: map<string, Value>
    var lastSMSID: int

    constructor (config: map<string, Value>)
      ensures this.config == config && lastSMSID == 0
    {
      this.config := config;
      lastSMSID := 0;
    }

    /** `smsHandler`: `body` is the outcome of JSON binding (None when it
        fails) and `expectedSecret` the FORWARD_SECRET environment variable.
        A rejected request changes nothing and routes nothing; an accepted one
        sets `lastSMSID` to the request's id, larger or not, and routes it.
        It succeeds unless routing panics, which the recovery middleware
        turns into a 500 after `lastSMSID` has been set. */
    method SmsHandler(re: Regexp, expectedSecret: string, body: Option<SMSRequest>)
      returns (resp: Response, calls: seq<Call>)
      modifies this
      ensures body.None? ==> resp == BadRequest && calls == [] && lastSMSID == old(lastSMSID)
      ensures body.Some? && ValidateSecret(expectedSecret, body.value.secret).Some?
              ==> resp == Unauthorized && calls == [] && lastSMSID == old(lastSMSID)
      ensures body.Some? && ValidateSecret(expectedSecret, body.value.secret) == None
              ==> var req := body.value;
                  && lastSMSID == req.smsId
                  && RoutesFaithfully(calls, config, re, req.number, req.time, req.text, req)
                  && (resp == Success <==> !SomeRulePanics(config, re, req.number, req.time, req.text, req))
                  && (resp == Success ==> RoutesExactly(calls, config, re, req.number, req.time, req.text, req))
                  && (resp != Success ==> resp == Recovered)
    {
      if body.None? {
        resp, calls := BadRequest, [];
        return;
      }
      var req := body.value;
      if ValidateSecret(expectedSecret, req.secret).Some? {
        resp, calls := Unauthorized, [];
        return;
      }
      lastSMSID := req.smsId;
      var result;
      calls, result := ProcessSMS(re, config, req.number, req.time, req.text, req);
      match result
      case Panicked => resp := Recovered;
      case Done(err) => resp := if err.Some? then ServerError else Success;
    }

    /** `statusHandler`: the last accepted id and the number of entries in the
        rule table, malformed ones included. */
    function CurrentStatus(): (s: Status)
      reads this
      ensures s.lastProcessedId == lastSMSID && s.ruleCount == |config|
    {
      Status(lastSMSID, |config|)
    }
  }

  /** A routing pass, complete or cut short by a panic, calls no more adapters
      than the status page counts rules. */
  lemma CallsBoundedByRuleCount(calls: seq<Call>, config: map<string, Value>, re: Regexp,
                                sender: string, time: string, text: string, req: SMSRequest)
    requires RoutesFaithfully(calls, config, re, sender, time, text, req)
    ensures |calls| <= |config|
  {
    DistinctNamesCount(calls);
    assert Names(calls) <= config.Keys;
    SubsetCard(Names(calls), config.Keys);
  }

  lemma SubsetCard(a: set<string>, b: set<string>)
    requires a <= b
    ensures |a| <= |b|
  {
    assert b == a + (b - a);
  }

  /** Two accepted pushes in a row: the second id replaces the first even when
      it is smaller, since no maximum is taken, and even when routing either
      push panics. */
  method LastIdFollowsLatestPush(re: Regexp, config: map<string, Value>, first: SMSRequest, second: SMSRequest)
    returns (last: int)
    ensures last == second.smsId
  {
    var service := new Service(config);
    var r1, c1 := service.SmsHandler(re, "", Some(first));
    var r2, c2 := service.SmsHandler(re, "", Some(second));
    last := service.CurrentStatus().lastProcessedId;
  }

  /** A keyword rule for "验证码" with a Bark channel, and a push whose text
      contains it: a run that completes makes exactly one call, to Bark, with the sender as title
      and the short form as body. */
  lemma KeywordBarkScenario(re: Regexp, url: string, req: SMSRequest, calls: seq<Call>)
    requires req.text == "您的验证码是654321"
    requires RoutesExactly(calls, OtpConfig(url), re, req.number, req.time, req.text, req)
    ensures calls == [Call("otp", Some(Bark(url, req.number, PhoneMessage(req.text, req))))]
  {
    var config := OtpConfig(url);
    assert OccursAt(req.text, "验证码", 2);
    KeywordFiresIffSubstring(re, "验证码", req.text);
    assert FiredRules(config, re, req.text) == {"otp"};
    DistinctNamesCount(calls);
    assert |calls| == 1;
    assert calls[0].name in Names(calls);
  }

  /** The same push under Go's engine: the Bark body contains the cue word,
      so the code extraction panics and the handler answers with the
      recovery middleware's 500 instead of success. */
  lemma OtpPushPanicsInGo(re: Regexp, url: string, req: SMSRequest)
    requires req.text == "您的验证码是654321"
    requires RejectsLookahead(re) && CueMatches(re, PhoneMessage(req.text, req))
    ensures SomeRulePanics(OtpConfig(url), re, req.number, req.time, req.text, req)
  {
    var config := OtpConfig(url);
    assert OccursAt(req.text, "验证码", 2);
    KeywordFiresIffSubstring(re, "验证码", req.text);
    assert Fires(re, config["otp"], req.text);
    BarkNeverCopiesInGo(re, PhoneMessage(req.text, req));
    assert Panics(re, Outcome(config["otp"], req.number, req.time, req.text, req));
  }

  function OtpConfig(url: string): map<string, Value>
  {
    map["otp" := Map(map["rule" := Str("验证码"), "type" := Str("keyword"),
                         "notify" := Str("bark"), "url" := Str(url)])]
  }
}
