/**
 * `WhatsAppChannel`: recipient formatting, message composition and
 * truncation, and how the transport's reply becomes the send result.
 */
module WhatsApp {
  import opened Wrappers
  import opened Strings
  import opened Phone
  import opened ChannelFactory

  /** WhatsApp's message length limit. */
  const MESSAGE_LIMIT: nat := 1600
  /** The sender used when no number is configured. */
  const DEFAULT_FROM_NUMBER: string := "+14155238886"

  /**
   * `formatWhatsAppNumber`: a `whatsapp:` address is kept as it is; anything
   * else is cleaned, given a `+` if it lacks one, and prefixed.
   */
  function FormatWhatsAppNumber(phone: string): (r: string)
    ensures StartsWith(r, WHATSAPP_PREFIX)
    ensures StartsWith(phone, WHATSAPP_PREFIX) ==> r == phone
    ensures !StartsWith(phone, WHATSAPP_PREFIX) ==> StartsWith(r, "whatsapp:+") && Clean(r)
    ensures !StartsWith(phone, WHATSAPP_PREFIX) ==>
      r == WHATSAPP_PREFIX + (if StartsWith(StripNoise(phone), "+") then "" else "+") + StripNoise(phone)
  {
    if StartsWith(phone, WHATSAPP_PREFIX) then phone
    else
      var cleaned := StripNoise(phone);
      var plus := if StartsWith(cleaned, "+") then cleaned else "+" + cleaned;
      PrefixIsClean();
      CleanAppend("+", cleaned);
      CleanAppend(WHATSAPP_PREFIX, plus);
      assert plus[..1] == "+";
      assert (WHATSAPP_PREFIX + plus)[..|WHATSAPP_PREFIX|] == WHATSAPP_PREFIX;
      assert (WHATSAPP_PREFIX + plus)[..|"whatsapp:+"|] == "whatsapp:+";
      assert WHATSAPP_PREFIX + plus ==
        WHATSAPP_PREFIX + (if StartsWith(cleaned, "+") then "" else "+") + cleaned;
      WHATSAPP_PREFIX + plus
  }

  /** Formatting a formatted number changes nothing. */
  lemma FormatIdempotent(phone: string)
    ensures FormatWhatsAppNumber(FormatWhatsAppNumber(phone)) == FormatWhatsAppNumber(phone)
  {
  }

  /** Spaces, dashes and brackets do not change the address a bare number formats to. */
  lemma FormatIgnoresNoise(a: string, b: string)
    requires !StartsWith(a, WHATSAPP_PREFIX) && !StartsWith(b, WHATSAPP_PREFIX)
    requires StripNoise(a) == StripNoise(b)
    ensures FormatWhatsAppNumber(a) == FormatWhatsAppNumber(b)
  {
  }

  /** `*subject*\n\nbody` when there is a subject, otherwise just the body. */
  function MessageBody(p: NotificationPayload): (m: string)
    ensures p.subject == "" ==> m == p.body
    ensures p.subject != "" ==> |m| == |p.subject| + |p.body| + 4 && m[0] == '*' && m[|p.subject| + 1] == '*'
    ensures p.subject != "" ==> m[1..|p.subject| + 1] == p.subject && m[|p.subject| + 4..] == p.body
  {
    if p.subject != "" then "*" + p.subject + "*\n\n" + p.body else p.body
  }

  /** `messageBody.substring(0, 1600)`. */
  function TruncatedBody(p: NotificationPayload): (t: string)
    ensures |t| <= MESSAGE_LIMIT && |t| <= |MessageBody(p)|
    ensures t == MessageBody(p)[..|t|]
    ensures |MessageBody(p)| <= MESSAGE_LIMIT ==> t == MessageBody(p)
    ensures |MessageBody(p)| > MESSAGE_LIMIT ==> |t| == MESSAGE_LIMIT
  {
    Prefix(MessageBody(p), MESSAGE_LIMIT)
  }

  /** The channel's fixed state: whether a client is configured, and the sender. */
  datatype WhatsAppChannelState = WhatsAppChannelState(client: bool, fromNumber: string)

  /** The constructor, reading the account id, the token and the sender from the environment. */
  function NewWhatsAppChannel(sid: Option<string>, auth: Option<string>, from: Option<string>): (ch: WhatsAppChannelState)
    ensures ch.client <==> Truthy(sid) && Truthy(auth)
    ensures StartsWith(ch.fromNumber, WHATSAPP_PREFIX)
    ensures Truthy(from) ==> ch.fromNumber == FormatWhatsAppNumber(from.value)
    ensures !Truthy(from) ==> ch.fromNumber == FormatWhatsAppNumber(DEFAULT_FROM_NUMBER)
  {
    var number := if Truthy(from) then from.value else DEFAULT_FROM_NUMBER;
    WhatsAppChannelState(Truthy(sid) && Truthy(auth), FormatWhatsAppNumber(number))
  }

  /** A number of digits starting with `+` only gains the prefix. */
  lemma FormatDialable(d: string)
    requires |d| > 0 && d[0] == '+' && Dialable(d)
    ensures FormatWhatsAppNumber(d) == WHATSAPP_PREFIX + d
  {
    DialableIsClean(d);
    StripClean(d);
    assert d[..1] == "+";
    assert !StartsWith(d, WHATSAPP_PREFIX) by {
      assert |d| < |WHATSAPP_PREFIX| || d[..|WHATSAPP_PREFIX|][0] != WHATSAPP_PREFIX[0];
    }
    assert WHATSAPP_PREFIX + "" + d == WHATSAPP_PREFIX + d;
  }

  /** The default sender is a dialable number starting with `+`. */
  lemma DefaultSenderDialable()
    ensures |DEFAULT_FROM_NUMBER| > 0 && DEFAULT_FROM_NUMBER[0] == '+' && Dialable(DEFAULT_FROM_NUMBER)
  {
  }

  lemma DefaultSenderPrefixed()
    ensures WHATSAPP_PREFIX + DEFAULT_FROM_NUMBER == "whatsapp:+14155238886"
  {
  }

  /** The default sender formats to `whatsapp:+14155238886`. */
  lemma DefaultSender()
    ensures FormatWhatsAppNumber(DEFAULT_FROM_NUMBER) == "whatsapp:+14155238886"
  {
    DefaultSenderDialable();
    DefaultSenderPrefixed();
    FormatDialable(DEFAULT_FROM_NUMBER);
  }

  /** The `messages.create` request. */
  datatype OutgoingMessage = OutgoingMessage(from: string, to: string, body: string)

  /** What the transport answered: a message status, or an error. */
  datatype TwilioReply = MessageStatus(status: string) | TwilioError

  /** The statuses that count as a successful send. */
  predicate Accepted(status: string)
  {
    status == "queued" || status == "sending" || status == "sent" || status == "delivered"
  }

  function Outgoing(ch: WhatsAppChannelState, p: NotificationPayload): (m: Option<OutgoingMessage>)
    ensures m.None? <==> p.to.None?
    ensures m.Some? ==> m.value.from == ch.fromNumber && m.value.to == FormatWhatsAppNumber(p.to.value)
    ensures m.Some? ==> m.value.body == TruncatedBody(p) && |m.value.body| <= MESSAGE_LIMIT
  {
    if p.to.None? then None
    else Some(OutgoingMessage(ch.fromNumber, FormatWhatsAppNumber(p.to.value), TruncatedBody(p)))
  }

  /**
   * `send`: with no client the message is only logged and counts as sent;
   * a missing recipient makes the formatting throw, which is caught as a
   * failure; otherwise the reply status decides.
   */
  function Send(ch: WhatsAppChannelState, p: NotificationPayload, twilio: OutgoingMessage -> TwilioReply): bool
  {
    if !ch.client then true
    else
      match Outgoing(ch, p)
      case None => false
      case Some(m) =>
        match twilio(m)
        case MessageStatus(s) => Accepted(s)
        case TwilioError => false
  }

  /** The result of a configured send is true exactly for an accepted status. */
  lemma SendSucceedsIffAccepted(ch: WhatsAppChannelState, p: NotificationPayload, twilio: OutgoingMessage -> TwilioReply)
    requires ch.client && p.to.Some?
    ensures Send(ch, p, twilio) <==>
      (twilio(Outgoing(ch, p).value).MessageStatus? && Accepted(twilio(Outgoing(ch, p).value).status))
  {
  }

  /** Without a client, every send reports success. */
  lemma UnconfiguredAlwaysSucceeds(ch: WhatsAppChannelState, p: NotificationPayload, twilio: OutgoingMessage -> TwilioReply)
    requires !ch.client
    ensures Send(ch, p, twilio)
  {
  }

  /** A transport error, or a `failed`/`undelivered` status, is a failed send. */
  lemma RejectedFails(ch: WhatsAppChannelState, p: NotificationPayload, twilio: OutgoingMessage -> TwilioReply)
    requires ch.client && p.to.Some?
    requires twilio(Outgoing(ch, p).value) == TwilioError ||
             twilio(Outgoing(ch, p).value) == MessageStatus("failed") ||
             twilio(Outgoing(ch, p).value) == MessageStatus("undelivered")
    ensures !Send(ch, p, twilio)
  {
  }
}
