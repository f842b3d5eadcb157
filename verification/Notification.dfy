/**
 The events that user-service publishes and the handlers that notification-service runs on
 them. JSON text is modelled by the object it denotes, so a packet has to survive field by
 field; a mail is sent or not by an outcome the mail service chooses.
 */
module Notification {
  import opened Wrappers
  import opened GoTime
  import KafkaConsumer

  datatype JsonValue = JString(s: string) | JNumber(n: int)
  datatype Payload = Object(fields: map<string, JsonValue>) | NotJson

  datatype OTPEmailPacket = OTPEmailPacket(name: string, email: string, otp: string, ttlMinutes: int)
  datatype VerifyEmailPacket = VerifyEmailPacket(email: string, firstname: string, lastname: string)

  datatype Message = Message(topic: Option<string>, payload: Payload)

  const OTP_TOPIC := "notification.otp-email"
  const WELCOME_TOPIC := "notification.welcome-email"
  const BOOKING_TOPIC := "notification.booking-email"
  const PAYMENT_TOPIC := "notification.payment-email"

  function MarshalOTP(p: OTPEmailPacket): Payload {
    Object(map["name" := JString(p.name), "email" := JString(p.email), "otp" := JString(p.otp),
               "ttl_minutes" := JNumber(p.ttlMinutes)])
  }

  function MarshalVerify(p: VerifyEmailPacket): Payload {
    Object(map["email" := JString(p.email), "firstname" := JString(p.firstname), "lastname" := JString(p.lastname)])
  }

  /** A missing field leaves the zero value; a field of the wrong type is an error. */
  function StringField(fields: map<string, JsonValue>, name: string): Option<string> {
    if name !in fields then Some("")
    else if fields[name].JString? then Some(fields[name].s) else None
  }

  function NumberField(fields: map<string, JsonValue>, name: string): Option<int> {
    if name !in fields then Some(0)
    else if fields[name].JNumber? then Some(fields[name].n) else None
  }

  function UnmarshalOTP(v: Payload): Option<OTPEmailPacket> {
    if v.NotJson? then None else
    match (StringField(v.fields, "name"), StringField(v.fields, "email"),
           StringField(v.fields, "otp"), NumberField(v.fields, "ttl_minutes"))
    case (Some(name), Some(email), Some(otp), Some(ttl)) => Some(OTPEmailPacket(name, email, otp, ttl))
    case _ => None
  }

  function UnmarshalVerify(v: Payload): Option<VerifyEmailPacket> {
    if v.NotJson? then None else
    match (StringField(v.fields, "email"), StringField(v.fields, "firstname"), StringField(v.fields, "lastname"))
    case (Some(email), Some(first), Some(last)) => Some(VerifyEmailPacket(email, first, last))
    case _ => None
  }

  /** What a handler call ended with; Sent carries the recipient. */
  datatype Handled = Sent(to: string) | BadEvent | MailFailed | NoTopic | Unsupported

  function HandleSendOTPEmail(m: Message, valid: string -> bool, mailOk: bool): Handled {
    match UnmarshalOTP(m.payload)
    case None => BadEvent
    case Some(p) =>
      if !valid(p.email) || p.otp == "" || p.ttlMinutes <= 0 then BadEvent
      else if mailOk then Sent(p.email) else MailFailed
  }

  function HandleVerifyOTPEmail(m: Message, valid: string -> bool, mailOk: bool): Handled {
    match UnmarshalVerify(m.payload)
    case None => BadEvent
    case Some(p) => if !valid(p.email) then BadEvent else if mailOk then Sent(p.email) else MailFailed
  }

  function ConsumeNotification(m: Message, valid: string -> bool, mailOk: bool): Handled {
    match m.topic
    case None => NoTopic
    case Some(topic) =>
      if topic == OTP_TOPIC then HandleSendOTPEmail(m, valid, mailOk)
      else if topic == WELCOME_TOPIC then HandleVerifyOTPEmail(m, valid, mailOk)
      else Unsupported
  }

  /** Some mail outcome lets the handler succeed on the message. */
  predicate Deliverable(m: Message, valid: string -> bool) {
    ConsumeNotification(m, valid, true).Sent?
  }

  /** The message that SendOtpEmail publishes for a signup. */
  function OtpMessage(email: string, name: string, otp: string, otpTTL: int): Message {
    Message(Some(OTP_TOPIC), MarshalOTP(OTPEmailPacket(name, email, otp, ExpiresInMinutes(otpTTL))))
  }

  /** The message that VerifyOtpEmail publishes for a new account. */
  function WelcomeMessage(email: string, first: string, last: string): Message {
    Message(Some(WELCOME_TOPIC), MarshalVerify(VerifyEmailPacket(email, first, last)))
  }

  lemma PacketsRoundTrip(p: OTPEmailPacket, v: VerifyEmailPacket)
    ensures UnmarshalOTP(MarshalOTP(p)) == Some(p)
    ensures UnmarshalVerify(MarshalVerify(v)) == Some(v)
  {
    var names := ["name", "email", "otp", "ttl_minutes", "firstname", "lastname"];
    assert names[0][0] == 'n' && names[1][0] == 'e' && names[2][0] == 'o' && names[3][0] == 't' &&
           names[4][0] == 'f' && names[5][0] == 'l';
  }

  /**
   The consumer accepts a published OTP event exactly when the address is valid, the code is
   non-empty and the configured TTL gives a positive number of minutes; it then mails the
   address that signed up.
   */
  lemma OtpEventDeliverableExactly(email: string, name: string, otp: string, otpTTL: int, valid: string -> bool)
    ensures Deliverable(OtpMessage(email, name, otp, otpTTL), valid) <==>
            valid(email) && otp != "" && 0 < Seconds(otpTTL) <= TWO_TO_63 - MINUTE
    ensures Deliverable(OtpMessage(email, name, otp, otpTTL), valid) ==>
            ConsumeNotification(OtpMessage(email, name, otp, otpTTL), valid, true) == Sent(email)
  {
    PacketsRoundTrip(OTPEmailPacket(name, email, otp, ExpiresInMinutes(otpTTL)), VerifyEmailPacket("", "", ""));
    MinutesPositiveExactly(otpTTL);
  }

  /** Decoding fails exactly when there is no object or a field of it has the wrong type. */
  lemma DecodesExactly(fields: map<string, JsonValue>)
    ensures UnmarshalOTP(NotJson) == None && UnmarshalVerify(NotJson) == None
    ensures UnmarshalOTP(Object(fields)).Some? <==>
              && (forall f | f in {"name", "email", "otp"} && f in fields :: fields[f].JString?)
              && ("ttl_minutes" in fields ==> fields["ttl_minutes"].JNumber?)
    ensures UnmarshalVerify(Object(fields)).Some? <==>
              forall f | f in {"email", "firstname", "lastname"} && f in fields :: fields[f].JString?
  {
  }

  /** Whatever the event: it is handled successfully only by a mail that went out, to the address in its packet. */
  lemma SuccessMeansMailed(m: Message, valid: string -> bool, mailOk: bool)
    ensures ConsumeNotification(m, valid, mailOk).Sent? <==> mailOk && Deliverable(m, valid)
    ensures ConsumeNotification(m, valid, mailOk).MailFailed? <==> !mailOk && Deliverable(m, valid)
    ensures ConsumeNotification(m, valid, mailOk).Sent? ==>
              var to := ConsumeNotification(m, valid, mailOk).to;
              && valid(to)
              && (m.topic == Some(OTP_TOPIC) ==> UnmarshalOTP(m.payload).Some? && UnmarshalOTP(m.payload).value.email == to)
              && (m.topic == Some(WELCOME_TOPIC) ==>
                    UnmarshalVerify(m.payload).Some? && UnmarshalVerify(m.payload).value.email == to)
  {
    assert OTP_TOPIC[13] == 'o' && WELCOME_TOPIC[13] == 'w';
    hide UnmarshalOTP, UnmarshalVerify;
  }

  /** A welcome event is mailed to the new account's address exactly when the consumer accepts that address. */
  lemma WelcomeEventDeliverableExactly(email: string, first: string, last: string, valid: string -> bool)
    ensures Deliverable(WelcomeMessage(email, first, last), valid) <==> valid(email)
    ensures valid(email) ==> ConsumeNotification(WelcomeMessage(email, first, last), valid, true) == Sent(email)
  {
    PacketsRoundTrip(OTPEmailPacket("", "", "", 0), VerifyEmailPacket(email, first, last));
    assert OTP_TOPIC[13] == 'o' && WELCOME_TOPIC[13] == 'w';
    hide UnmarshalOTP, UnmarshalVerify;
  }

  /** A welcome event on the OTP topic, or an event on a topic without a handler, is never accepted. */
  lemma MisroutedNeverDeliverable(m: Message, email: string, first: string, last: string, valid: string -> bool)
    requires m.topic == None || m.topic == Some(BOOKING_TOPIC) || m.topic == Some(PAYMENT_TOPIC) ||
             (m.topic == Some(OTP_TOPIC) && m.payload == WelcomeMessage(email, first, last).payload)
    ensures !Deliverable(m, valid)
  {
    assert OTP_TOPIC[13] == 'o' && WELCOME_TOPIC[13] == 'w' && BOOKING_TOPIC[13] == 'b' && PAYMENT_TOPIC[13] == 'p';
    assert ["otp", "email", "firstname", "lastname"][0][0] == 'o';
  }

  function Handler(valid: string -> bool): Message -> bool {
    m => Deliverable(m, valid)
  }

  /**
   The notification service as a whole: with the handlers above, runs with any crashes can
   bring the stored offset of a partition to n exactly when its first n messages are deliverable.
   */
  lemma ServiceReachesExactlyTheDeliverablePrefix(
    logs: map<KafkaConsumer.Partition, seq<Message>>, valid: string -> bool, p: KafkaConsumer.Partition, n: nat)
    requires p in logs && n <= |logs[p]|
    ensures KafkaConsumer.CanReach(logs, Handler(valid), p, n) <==>
            (forall o | 0 <= o < n :: Deliverable(logs[p][o], valid))
  {
    KafkaConsumer.ReachesExactlyTheAcceptedPrefix(logs, Handler(valid), p, n);
    HandlerAccepts(logs[p], valid, n);
  }

  lemma HandlerAccepts(log: seq<Message>, valid: string -> bool, n: nat)
    requires n <= |log|
    ensures KafkaConsumer.AllAccepted(log, Handler(valid), n) <==> (forall o | 0 <= o < n :: Deliverable(log[o], valid))
  {
    forall o | 0 <= o < n ensures Handler(valid)(log[o]) == Deliverable(log[o], valid) {}
  }

  /**
   SendOTP only asks for a non-empty address. An event it publishes for an address that the
   consumer refuses is a message no restart gets past.
   */
  lemma RefusedAddressStopsThePartition(
    logs: map<KafkaConsumer.Partition, seq<Message>>, valid: string -> bool, p: KafkaConsumer.Partition, o: nat, n: nat,
    email: string, name: string, otp: string, otpTTL: int)
    requires p in logs && o < n <= |logs[p]|
    requires logs[p][o] == OtpMessage(email, name, otp, otpTTL) && !valid(email)
    ensures !KafkaConsumer.CanReach(logs, Handler(valid), p, n)
  {
    OtpEventDeliverableExactly(email, name, otp, otpTTL, valid);
    ServiceReachesExactlyTheDeliverablePrefix(logs, valid, p, n);
  }
}
