/** What `sendBark`, `sendGotify` and `sendEmail` of notification.go hand to
    the network: the request records and the strings built from their
    arguments. The sends themselves are not modelled. */
module Payloads {
  import opened Types
  import opened Text
  import opened Codes

  // ---------------------------------------------------------------------------
  // Bark

  /** The Bark JSON request (BarkRequest); zero values are "" and 0. */
  datatype BarkRequest = BarkRequest(
    title: string, body: string, isArchive: int,
    group: string, icon: string, level: string, sound: string,
    badge: string, url: string, call: string,
    copy: string, autoCopy: int)

  /** The cue words after which `sendBark` looks for a verification code. */
  const CuePattern: string := @"(?i)(回复)?(验证码|授权码|校验码|检验码|确认码|激活码|动态码|安全码|(验证)?代码|校验代码|检验代码|激活代码|确认代码|动态代码|安全代码|登入码|认证码|识别码|短信口令|动态密码|交易码|上网密码|动态口令|随机码|驗證碼|授權碼|校驗碼|檢驗碼|確認碼|激活碼|動態碼|(驗證)?代碼|校驗代碼|檢驗代碼|確認代碼|激活代碼|動態代碼|登入碼|認證碼|識別碼|一次性密码|CODE|Verification)"

  /** `regexp.MatchString(pattern, body)` with its error discarded: a pattern
      that does not compile counts as no match. */
  function CueMatches(re: Regexp, body: string): (r: bool)
    ensures r ==> re.compiles(CuePattern)
    ensures r <==> MatchString(re, CuePattern, body) == Match(true)
  {
    match MatchString(re, CuePattern, body)
    case Match(matched) => matched
    case BadPattern => false
  }

  /** `sendBark` panics when the cue words match and the code extraction
      panics; nothing is sent then. */
  predicate BarkPanics(re: Regexp, body: string)
  {
    CueMatches(re, body) && ExtractVerificationCode(re, body).Panicked?
  }

  /** The request `sendBark(url, title, body)` serialises, or the panic that
      cuts it short: always archived, and with quick copy of the code exactly
      when the cue words occur and a non-empty code is extracted. */
  method BuildBarkRequest(re: Regexp, title: string, body: string) returns (r: Completion<BarkRequest>)
    ensures r.Panicked? <==> BarkPanics(re, body)
    ensures r.Done? ==> var msg := r.value;
              && msg.title == title && msg.body == body && msg.isArchive == 1
              && msg.group == msg.icon == msg.level == msg.sound == msg.badge == msg.url == msg.call == ""
              && (msg.autoCopy == 1 <==> msg.copy != "") && IsTrimmed(msg.copy)
    ensures r.Done? && CueMatches(re, body) && ExtractVerificationCode(re, body) != Done("")
            ==> Done(r.value.copy) == ExtractVerificationCode(re, body) && r.value.autoCopy == 1
    ensures r.Done? && !(CueMatches(re, body) && ExtractVerificationCode(re, body) != Done(""))
            ==> r.value.copy == "" && r.value.autoCopy == 0
  {
    var msg := BarkRequest(title, body, 1, "", "", "", "", "", "", "", "", 0);
    var matched := CueMatches(re, body);
    if matched {
      var code := ExtractVerificationCode(re, body);
      if code.Panicked? {
        return Panicked;
      }
      if code.value != "" {
        msg := msg.(copy := code.value, autoCopy := 1);
      }
    }
    r := Done(msg);
  }

  /** With Go's engine, which rejects the look-ahead of the extraction
      patterns, a Bark push panics exactly when its body matches the cue
      words, so no request with a quick-copy code is ever built. */
  lemma BarkNeverCopiesInGo(re: Regexp, body: string)
    requires RejectsLookahead(re)
    ensures BarkPanics(re, body) <==> CueMatches(re, body)
  {
    if CueMatches(re, body) {
      ExtractionAlwaysPanicsInGo(re, body);
    }
  }

  // ---------------------------------------------------------------------------
  // Gotify

  /** The Gotify JSON message (GotifyRequest). */
  datatype GotifyRequest = GotifyRequest(title: string, message: string, priority: int)

  /** The POST `sendGotify` makes: its target URL and its JSON body. */
  datatype GotifyPost = GotifyPost(target: string, payload: GotifyRequest)

  const GotifyPath: string := "/message?token="

  /** `sendGotify(url, token, title, message)`: posts to the server's message
      endpoint with the token in the query, at priority 9. The server URL and
      the token can be read back from the target. */
  function BuildGotifyPost(url: string, token: string, title: string, message: string): (p: GotifyPost)
    ensures p.payload.title == title && p.payload.message == message && p.payload.priority == 9
    ensures |p.target| == |url| + |GotifyPath| + |token| && HasPrefix(p.target, url)
    ensures p.target[|url|..|url| + |GotifyPath|] == "/message?token="
    ensures p.target[|url| + |GotifyPath|..] == token
  {
    GotifyPost(url + GotifyPath + token, GotifyRequest(title, message, 9))
  }

  // ---------------------------------------------------------------------------
  // Email

  /** `smtp.PlainAuth(identity, username, password, host)`. */
  datatype PlainAuth = PlainAuth(identity: string, username: string, password: string, host: string)

  /** The arguments of `smtp.SendMail(addr, auth, from, to, msg)`. */
  datatype Submission = Submission(addr: string, auth: PlainAuth, from: string, to: seq<string>, msg: string)

  const ContentTypeHeader: string := "Content-Type: text/plain; charset=UTF-8"
  const BlankLine: string := "\r\n\r\n"

  /** The message bytes: To and Subject headers, the content type, an empty
      line, then the body. */
  function EmailMessage(to: string, subject: string, body: string): (r: string)
    ensures HasPrefix(r, "To: " + to + "\r\n")
    ensures |body| <= |r| && r[|r| - |body|..] == body
  {
    "To: " + to + "\r\n" + "Subject: " + subject + "\r\n" + ContentTypeHeader + BlankLine + body
  }

  /** `sendEmail(smtpHost, smtpPort, username, password, from, to, subject, body)`. */
  function BuildSubmission(smtpHost: string, smtpPort: string, username: string, password: string,
                           from: string, to: string, subject: string, body: string): (s: Submission)
    ensures s.auth == PlainAuth("", username, password, smtpHost)
    ensures s.from == from && s.to == [to]
  {
    Submission(smtpHost + ":" + smtpPort, PlainAuth("", username, password, smtpHost),
               from, [to], EmailMessage(to, subject, body))
  }

  /** An address split at its last colon into what precedes and what follows
      it (unlike `net.SplitHostPort`, a host holding a colon is not rejected). */
  function SplitHostPort(addr: string): Option<(string, string)>
  {
    var k := LastIndexOf(addr, ':');
    if k < 0 then None else Some((addr[..k], addr[k + 1..]))
  }

  /** A mail reader's view of a message: the header block before the first
      empty line, and the body after it. */
  function SplitMessage(msg: string): (r: Option<(string, string)>)
    ensures r.Some? ==> msg == r.value.0 + BlankLine + r.value.1
    ensures r.Some? ==> forall j :: 0 <= j < |r.value.0| ==> !OccursAt(msg, BlankLine, j)
    ensures r.None? ==> forall j :: 0 <= j ==> !OccursAt(msg, BlankLine, j)
  {
    var k := IndexFrom(msg, BlankLine, 0);
    if k < 0 then None
    else
      assert msg == msg[..k] + msg[k..k + |BlankLine|] + msg[k + |BlankLine|..];
      Some((msg[..k], msg[k + |BlankLine|..]))
  }

  /** The SMTP server address is `host:port`, and splitting it gives back the
      configured host and port whenever the port has no colon. */
  lemma SubmissionAddressRoundTrip(smtpHost: string, smtpPort: string, username: string, password: string,
                                   from: string, to: string, subject: string, body: string)
    requires ':' !in smtpPort
    ensures SplitHostPort(BuildSubmission(smtpHost, smtpPort, username, password, from, to, subject, body).addr)
            == Some((smtpHost, smtpPort))
  {
    var addr := smtpHost + ":" + smtpPort;
    var k := LastIndexOf(addr, ':');
    assert addr[|smtpHost|] == ':';
    assert k == |smtpHost|;
    assert addr[..k] == smtpHost;
    assert addr[k + 1..] == smtpPort;
  }

  /** A reader splits the message back into exactly the To, Subject and
      Content-Type headers and the body, whenever the recipient and subject
      contain no carriage return. */
  lemma SubmissionMessageRoundTrip(smtpHost: string, smtpPort: string, username: string, password: string,
                                   from: string, to: string, subject: string, body: string)
    requires '\r' !in to && '\r' !in subject
    ensures SplitMessage(BuildSubmission(smtpHost, smtpPort, username, password, from, to, subject, body).msg)
            == Some(("To: " + to + "\r\n" + "Subject: " + subject + "\r\n" + ContentTypeHeader, body))
  {
    var head := "To: " + to + "\r\n" + "Subject: " + subject + "\r\n" + ContentTypeHeader;
    var msg := head + BlankLine + body;
    assert msg == EmailMessage(to, subject, body);
    var a := 4 + |to|;
    var b := a + 2 + 9 + |subject|;
    assert |head| == b + 2 + |ContentTypeHeader|;
    forall j | 0 <= j < |head| ensures !OccursAt(msg, BlankLine, j)
    {
      if OccursAt(msg, BlankLine, j) {
        assert msg[j] == msg[j..j + 4][0] == '\r';
        assert msg[j + 2] == msg[j..j + 4][2] == '\r';
        CarriageReturnsOfHead(to, subject, body, j);
      }
    }
    assert msg[|head|..|head| + 4] == BlankLine;
    assert OccursAt(msg, BlankLine, |head|);
    assert IndexFrom(msg, BlankLine, 0) == |head|;
    assert msg[..|head|] == head;
    assert msg[|head| + 4..] == body;
  }

  /** Inside the header block a carriage return is always followed, two
      characters on, by the first letter of the next header. */
  lemma CarriageReturnsOfHead(to: string, subject: string, body: string, j: int)
    requires '\r' !in to && '\r' !in subject
    requires 0 <= j < |EmailMessage(to, subject, body)| - |BlankLine| - |body|
    ensures EmailMessage(to, subject, body)[j] == '\r'
            ==> j + 2 < |EmailMessage(to, subject, body)| && EmailMessage(to, subject, body)[j + 2] != '\r'
  {
  }
}
