/** The consultation e-mail (bot/utils/send_email.py): the user's phone
    number, with a leading '+', mailed to the working address. The SMTP
    session is an outcome the caller supplies. */
module Email {
  import opened Text
  import opened Config

  /** Python truthiness of an optional string: set and non-empty. */
  predicate Filled(s: Option<string>) {
    s.Some? && s.value != ""
  }

  /** The guard `all([SMTP_USER, SMTP_PASSWORD, SMTP_TO_EMAIL, SMTP_SUBJECT])`. */
  predicate Configured(s: Settings) {
    Filled(s.smtpUser) && Filled(s.smtpPassword) && Filled(s.smtpToEmail) && s.smtpSubject != ""
  }

  /** The number with a '+' in front unless it already starts with one. */
  function NormalizePhone(phone: string): (r: string)
    ensures |r| >= 1 && r[0] == '+'
    ensures r == phone <==> |phone| >= 1 && phone[0] == '+'
    ensures r != phone ==> r == "+" + phone
  {
    if |phone| >= 1 && phone[0] == '+' then phone else "+" + phone
  }

  /** The number without its leading '+', if it has one. */
  function Digits(phone: string): string {
    if |phone| >= 1 && phone[0] == '+' then phone[1..] else phone
  }

  /** Normalising twice is normalising once, and it never changes the number
      itself, only its '+'. */
  lemma NormalizeKeepsNumber(phone: string)
    ensures NormalizePhone(NormalizePhone(phone)) == NormalizePhone(phone)
    ensures Digits(NormalizePhone(phone)) == Digits(phone)
  {
    if !(|phone| >= 1 && phone[0] == '+') {
      assert ("+" + phone)[1..] == phone;
    }
  }

  /** The message put on the wire. */
  datatype Mail = Mail(subject: string, sender: string, recipients: seq<string>, body: string)

  function ConsultationMail(s: Settings, phone: string): (m: Mail)
    requires Configured(s)
    ensures m.body == NormalizePhone(phone)
    ensures m.recipients == [s.smtpToEmail.value] && m.sender == s.smtpUser.value
  {
    Mail(s.smtpSubject, s.smtpUser.value, [s.smtpToEmail.value], NormalizePhone(phone))
  }

  /** `send_consultation_email`: False without a full configuration (and
      nothing is sent); otherwise whether the SSL session on
      `SMTP_SERVER:SMTP_PORT` logged in and sent the mail, an exception
      anywhere in it giving False. */
  function SendConsultationEmail(s: Settings, phone: string, delivers: Mail -> bool): (sent: bool)
    ensures !Configured(s) ==> !sent
    ensures Configured(s) ==> (sent <==> delivers(ConsultationMail(s, phone)))
  {
    Configured(s) && delivers(ConsultationMail(s, phone))
  }

  /** Whatever the user types, the mail's body starts with '+' and carries
      the number as typed. */
  lemma MailCarriesNumber(s: Settings, phone: string)
    requires Configured(s)
    ensures var b := ConsultationMail(s, phone).body;
      b[0] == '+' && Digits(b) == Digits(phone)
  {
    NormalizeKeepsNumber(phone);
  }
}
