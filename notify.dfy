/** `sendNotification` of notification.go: choose at most one channel adapter
    from a rule's `notify` tag and work out the exact arguments it is called
    with. The adapters themselves (network and SMTP calls) are outside the
    model; a `Dispatch` is the call that would be made. */
module Notify {
  import opened Types
  import opened Text

  /** The text `fmt.Sprintf("短信通知\n%%", message)` builds for the QQ adapter.
      The format has no verb for `message`, so its exact text is Go's
      formatting of an unused argument; the model keeps it opaque. */
  datatype QQText = QQNotice(message: string)

  /** One adapter call, with its arguments in the adapter's parameter order.
      QQ's fields are named after `sendQQPush(token, cqq, msg)`'s parameters. */
  datatype Dispatch =
    | WeChat(url: string, sender: string, time: string, text: string, rule: string)
    | Bark(url: string, title: string, body: string)
    | Gotify(url: string, token: string, title: string, message: string)
    | Email(smtpHost: string, smtpPort: string, username: string, password: string,
            from: string, to: string, subject: string, body: string)
    | QQ(tokenParam: QQText, cqqParam: string, msgParam: string)

  /** The subject of every forwarded email. */
  const EmailSubject: string := "短信通知"

  /** The long form used by email and QQ: the rule's pattern, the time and
      sender handed to the router, and the device fields of the request. */
  function RuleMessage(rule: string, time: string, sender: string, text: string, req: SMSRequest): (r: string)
    ensures HasPrefix(r, "触发规则: " + rule + "\n")
    ensures var tail := "\n短信内容: " + text + "\nSource: " + req.source; |tail| <= |r| && r[|r| - |tail|..] == tail
  {
    "触发规则: " + rule + "\n发送时间: " + time + "\n发送人: " + sender + " \nphoneID: "
    + req.phoneId + "\n短信内容: " + text + "\nSource: " + req.source
  }

  /** The short form used by Bark and Gotify: text, device id, the request's
      own time and its source, one per line. */
  function PhoneMessage(text: string, req: SMSRequest): (r: string)
    ensures |r| == |text| + |req.phoneId| + |req.time| + |req.source| + 3
    ensures HasPrefix(r, text + "\n") && r[|r| - |req.source| - 1..] == "\n" + req.source
  {
    text + "\n" + req.phoneId + "\n" + req.time + "\n" + req.source
  }

  /** The configuration fields each `notify` tag needs as strings; None for a
      tag the switch does not know. */
  function RequiredFields(tag: string): Option<seq<string>>
  {
    match tag
    case "wechat" => Some(["url"])
    case "bark" => Some(["url"])
    case "gotify" => Some(["url", "token"])
    case "email" => Some(["smtp_host", "smtp_port", "username", "password", "from", "to"])
    case "qq" => Some(["qq", "token"])
    case _ => None
  }

  /** The tag a dispatch was chosen for. */
  function TagOf(d: Dispatch): string
  {
    match d
    case WeChat(_, _, _, _, _) => "wechat"
    case Bark(_, _, _) => "bark"
    case Gotify(_, _, _, _) => "gotify"
    case Email(_, _, _, _, _, _, _, _) => "email"
    case QQ(_, _, _) => "qq"
  }

  predicate AllStrings(config: map<string, Value>, fields: seq<string>)
  {
    forall i :: 0 <= i < |fields| ==> StrField(config, fields[i]).Some?
  }

  /** `sendNotification(config, sender, time, text, rule, smsReq)`: the adapter
      call it makes, or None when `notify` is not a string, names no known
      channel, or a field that channel needs is not a string. */
  function SendNotification(config: map<string, Value>, sender: string, time: string,
                            text: string, rule: string, req: SMSRequest): (d: Option<Dispatch>)
    ensures d.Some? ==> StrField(config, "notify") == Some(TagOf(d.value))
  {
    var message := RuleMessage(rule, time, sender, text, req);
    var messagePhone := PhoneMessage(text, req);
    match StrField(config, "notify")
    case None => None
    case Some(notifyType) =>
      match notifyType
      case "wechat" =>
        (match StrField(config, "url")
         case Some(url) => Some(WeChat(url, sender, time, text, rule))
         case None => None)
      case "bark" =>
        (match StrField(config, "url")
         case Some(url) => Some(Bark(url, sender, messagePhone))
         case None => None)
      case "gotify" =>
        var url, token := StrField(config, "url"), StrField(config, "token");
        if url.Some? && token.Some? then Some(Gotify(url.value, token.value, sender, messagePhone)) else None
      case "email" =>
        var smtpHost, smtpPort := StrField(config, "smtp_host"), StrField(config, "smtp_port");
        var username, password := StrField(config, "username"), StrField(config, "password");
        var from, to := StrField(config, "from"), StrField(config, "to");
        if smtpHost.Some? && smtpPort.Some? && username.Some? && password.Some? && from.Some? && to.Some?
        then Some(Email(smtpHost.value, smtpPort.value, username.value, password.value,
                        from.value, to.value, EmailSubject, message))
        else None
      case "qq" =>
        var qq, token := StrField(config, "qq"), StrField(config, "token");
        if qq.Some? && token.Some? then Some(QQ(QQNotice(message), qq.value, token.value)) else None
      case _ => None
  }

  /** Without a string `notify` tag no adapter is called. */
  lemma NoTagNoDispatch(config: map<string, Value>, sender: string, time: string,
                        text: string, rule: string, req: SMSRequest)
    requires StrField(config, "notify").None?
    ensures SendNotification(config, sender, time, text, rule, req).None?
  {
  }

  /** An adapter is called exactly when the tag names a known channel and every
      field that channel needs is a string; the adapter is the tag's own. */
  lemma DispatchIffFieldsPresent(config: map<string, Value>, sender: string, time: string,
                                 text: string, rule: string, req: SMSRequest)
    ensures var d := SendNotification(config, sender, time, text, rule, req);
            d.Some? <==> (StrField(config, "notify").Some?
                          && RequiredFields(StrField(config, "notify").value).Some?
                          && AllStrings(config, RequiredFields(StrField(config, "notify").value).value))
  {
    var d := SendNotification(config, sender, time, text, rule, req);
    var tag := StrField(config, "notify");
    if tag.Some? && RequiredFields(tag.value).Some? {
      var fields := RequiredFields(tag.value).value;
      if AllStrings(config, fields) {
        assert forall i :: 0 <= i < |fields| && i < 6 ==> StrField(config, fields[i]).Some?;
        assert |fields| > 0 ==> StrField(config, fields[0]).Some?;
        assert |fields| > 1 ==> StrField(config, fields[1]).Some?;
        assert |fields| > 5 ==> StrField(config, fields[2]).Some? && StrField(config, fields[3]).Some?
                                && StrField(config, fields[4]).Some? && StrField(config, fields[5]).Some?;
      } else {
        var i :| 0 <= i < |fields| && StrField(config, fields[i]).None?;
      }
    }
  }

  /** The choice depends only on the rule's configuration, never on the
      message: two messages routed through one rule reach the same adapter. */
  lemma ChannelIndependentOfMessage(config: map<string, Value>, sender: string, time: string,
                                    text: string, rule: string, req: SMSRequest,
                                    sender': string, time': string, text': string,
                                    rule': string, req': SMSRequest)
    ensures var d, d' := SendNotification(config, sender, time, text, rule, req),
                         SendNotification(config, sender', time', text', rule', req');
            d.Some? == d'.Some? && (d.Some? ==> TagOf(d.value) == TagOf(d'.value))
  {
  }

  /** Bark and Gotify get the sender as title and the short form as body. */
  lemma PushChannelsGetPhoneMessage(config: map<string, Value>, sender: string, time: string,
                                    text: string, rule: string, req: SMSRequest)
    requires SendNotification(config, sender, time, text, rule, req).Some?
    ensures var d := SendNotification(config, sender, time, text, rule, req).value;
            (d.Bark? ==> d.title == sender && d.body == text + "\n" + req.phoneId + "\n" + req.time + "\n" + req.source)
            && (d.Gotify? ==> d.title == sender && d.message == text + "\n" + req.phoneId + "\n" + req.time + "\n" + req.source
                              && Some(d.token) == StrField(config, "token"))
  {
  }

  /** Email carries the fixed subject and the rule-labelled long form, and
      sends to the configured recipient. */
  lemma EmailGetsRuleMessage(config: map<string, Value>, sender: string, time: string,
                             text: string, rule: string, req: SMSRequest)
    requires SendNotification(config, sender, time, text, rule, req).Some?
    requires SendNotification(config, sender, time, text, rule, req).value.Email?
    ensures var d := SendNotification(config, sender, time, text, rule, req).value;
            d.subject == "短信通知" && d.body == RuleMessage(rule, time, sender, text, req)
            && Some(d.to) == StrField(config, "to") && Some(d.smtpHost) == StrField(config, "smtp_host")
  {
  }

  /** The QQ branch hands `sendQQPush` its arguments out of order: the
      formatted message lands in the `token` parameter and the configured
      token in the `msg` parameter. */
  lemma QQArgumentsSwapped(config: map<string, Value>, sender: string, time: string,
                           text: string, rule: string, req: SMSRequest)
    requires SendNotification(config, sender, time, text, rule, req).Some?
    requires SendNotification(config, sender, time, text, rule, req).value.QQ?
    ensures var d := SendNotification(config, sender, time, text, rule, req).value;
            d.tokenParam == QQNotice(RuleMessage(rule, time, sender, text, req))
            && Some(d.cqqParam) == StrField(config, "qq")
            && Some(d.msgParam) == StrField(config, "token")
  {
  }
}
