/** The Alibaba Cloud DirectMail sender (mail/driver/alicloud/sender.go). */
module MailSender {
  import opened Wrappers
  import opened Errors
  import Strings

  /** mailer.Type: TypeNormal = 0, TypeTemplate = 1. */
  const TypeNormal: int := 0
  const TypeTemplate: int := 1

  datatype Mail = Mail(from: string, to: seq<string>, cc: seq<string>, bcc: seq<string>, subject: string, body: string)

  datatype Mailer = Mailer(mailType: int, mail: Mail)

  /** The SingleSendMail request handed to the SDK. */
  datatype SendRequest = SendRequest(accountName: string, addressType: int, fromAlias: string,
                                     replyToAddress: bool, toAddress: string, subject: string, htmlBody: string)

  /** The configured sender account and alias. */
  datatype Account = Account(mail: string, name: string)

  const EmptyRecipientsMsg: string := "收件人不能为空"
  const UnsupportedTemplateMsg: string := "阿里云邮件推送服务不支持模板邮件"
  const UnknownTypeMsg: string := "未知的邮件类型"
  const RequestFailedMsg: string := "阿里云邮件推送服务请求失败"

  /**
   * SendNormalMail: To must be non-empty; CC and BCC are appended to it (DirectMail has no
   * copies) and the list is joined with ","; subject and body pass through. `reply` is the
   * SDK call's error, if any. Returns the request sent (None: nothing sent) and the error.
   */
  method SendNormalMail(account: Account, m: Mailer, reply: Option<Error>)
    returns (sent: Option<SendRequest>, err: Option<Error>)
    ensures |m.mail.to| == 0 ==> sent.None? && err == Some(Failure(EmptyRecipientsMsg))
    ensures |m.mail.to| > 0 ==>
      sent == Some(SendRequest(account.mail, 1, account.name, true,
                               Strings.Join(m.mail.to + m.mail.cc + m.mail.bcc, ','),
                               m.mail.subject, m.mail.body))
    ensures |m.mail.to| > 0 ==>
      (reply.None? ==> err.None?) && (reply.Some? ==> err == Some(Wrapped(RequestFailedMsg, reply.value)))
  {
    var to := m.mail.to;
    if |to| == 0 {
      return None, Some(Failure(EmptyRecipientsMsg));
    }
    if |m.mail.cc| > 0 {
      to := to + m.mail.cc;
    }
    if |m.mail.bcc| > 0 {
      to := to + m.mail.bcc;
    }
    assert to == m.mail.to + m.mail.cc + m.mail.bcc;
    sent := Some(SendRequest(account.mail, 1, account.name, true, Strings.Join(to, ','), m.mail.subject, m.mail.body));
    if reply.Some? {
      return sent, Some(Wrapped(RequestFailedMsg, reply.value));
    }
    return sent, None;
  }

  /** The recipients of a sent request are exactly To, then CC, then BCC, when no address holds a comma. */
  lemma RecipientsRecovered(m: Mail)
    requires |m.to| > 0
    requires forall a :: a in m.to + m.cc + m.bcc ==> ',' !in a
    ensures Strings.Split(Strings.Join(m.to + m.cc + m.bcc, ','), ',') == m.to + m.cc + m.bcc
  {
    var all := m.to + m.cc + m.bcc;
    assert forall i :: 0 <= i < |all| ==> all[i] in all;
    Strings.SplitJoin(all, ',');
  }

  /**
   * SendSingle: TypeNormal goes to SendNormalMail; templates are unsupported and any other type
   * is unknown, both without sending.
   */
  method SendSingle(account: Account, m: Mailer, reply: Option<Error>)
    returns (sent: Option<SendRequest>, err: Option<Error>)
    ensures m.mailType == TypeTemplate ==> sent.None? && err == Some(Failure(UnsupportedTemplateMsg))
    ensures m.mailType != TypeNormal && m.mailType != TypeTemplate ==> sent.None? && err == Some(Failure(UnknownTypeMsg))
    ensures m.mailType == TypeNormal ==> (sent.Some? <==> |m.mail.to| > 0)
    ensures m.mailType == TypeNormal && sent.Some? ==> sent.value.subject == m.mail.subject && sent.value.htmlBody == m.mail.body
    ensures m.mailType == TypeNormal && |m.mail.to| == 0 ==> err == Some(Failure(EmptyRecipientsMsg))
    ensures m.mailType == TypeNormal && |m.mail.to| > 0 ==>
      sent == Some(SendRequest(account.mail, 1, account.name, true,
                               Strings.Join(m.mail.to + m.mail.cc + m.mail.bcc, ','),
                               m.mail.subject, m.mail.body)) &&
      (reply.Some? ==> err == Some(Wrapped(RequestFailedMsg, reply.value)))
    ensures sent.Some? ==> (err.None? <==> reply.None?)
  {
    if m.mailType == TypeNormal {
      sent, err := SendNormalMail(account, m, reply);
    } else if m.mailType == TypeTemplate {
      sent, err := None, Some(Failure(UnsupportedTemplateMsg));
    } else {
      sent, err := None, Some(Failure(UnknownTypeMsg));
    }
  }
}
