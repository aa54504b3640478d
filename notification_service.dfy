/** The donor notifications of backend/utils/notificationService.js. The mail
    and SMS transports are set up once from the environment; here they are
    flags saying whether each one is configured, and what a send does is a
    `Delivery` parameter. The HTML body and the transport calls themselves
    are not modelled: the model records what would be handed to them. */
module NotificationService {
  import opened Common
  import ReceiptService
  import MockPhonepe

  /** `{ success, error? }`, the value both senders resolve with. */
  datatype Outcome = Outcome(success: bool, error: Option<string>)

  /** How the transport call ends: accepted, or rejected with an error whose
      `message` may be missing or empty. */
  datatype Delivery = Delivered | DeliveryFailed(message: Option<string>)

  datatype Attachment = LogoAttachment | ReceiptAttachment(path: string)

  /** The arguments of `sendDonationEmail`; every field may be absent. */
  datatype EmailRequest = EmailRequest(
    to: Option<string>,
    name: Option<string>,
    amount: int,
    campaignTitle: Option<string>,
    paymentId: Option<string>,
    receiptPath: Option<string>)

  /** What is handed to the mail transport. */
  datatype Mail = Mail(to: string, subject: string, paymentRef: string, attachments: seq<Attachment>)

  /** How the returned promise settles: resolved with an outcome (and the mail
      that was handed to the transport, if any), or rejected because the
      payment id was absent and `.replace` was called on it. */
  datatype EmailResult = Resolved(outcome: Outcome, attempted: Option<Mail>) | Rejected

  /** Where the logo is looked up, relative to the working directory. */
  const LogoPath := "uploads/campussetu-logo.png"

  /** The subject line; a missing title renders as "undefined". */
  function Subject(campaignTitle: Option<string>): string {
    "\U{2705} Donation Successful - Thank you for supporting " + ShowUndefined(campaignTitle) + "!"
  }

  /** The logo when its file exists, then the receipt when a path was given
      and that file exists. `disk` is the set of paths that exist. */
  function Attachments(receiptPath: Option<string>, disk: set<string>): (a: seq<Attachment>)
    ensures LogoAttachment in a <==> LogoPath in disk
    ensures (exists p :: ReceiptAttachment(p) in a) <==> Truthy(receiptPath) && receiptPath.value in disk
    ensures forall p :: ReceiptAttachment(p) in a ==> Truthy(receiptPath) && p == receiptPath.value
    ensures |a| <= 2 && (|a| == 2 ==> a[0] == LogoAttachment)
  {
    var logo := if LogoPath in disk then [LogoAttachment] else [];
    var receipt := if Truthy(receiptPath) && receiptPath.value in disk then [ReceiptAttachment(receiptPath.value)] else [];
    assert Truthy(receiptPath) && receiptPath.value in disk ==> ReceiptAttachment(receiptPath.value) in logo + receipt;
    logo + receipt
  }

  /** The failure outcome of a rejected transport call. */
  function FailureOutcome(d: Delivery, fallback: string): (o: Outcome)
    requires d.DeliveryFailed? && fallback != ""
    ensures !o.success && o.error.Some? && o.error.value != ""
  {
    Outcome(false, Some(OrElse(d.message, fallback)))
  }

  /** `sendDonationEmail`. The transport is checked before the recipient; the
      payment id is cleaned before anything is sent, and an absent one
      rejects the promise; a transport error is caught and reported. */
  function SendDonationEmail(configured: bool, req: EmailRequest, disk: set<string>, delivery: Delivery): (r: EmailResult)
    ensures !configured ==> r == Resolved(Outcome(false, Some("Email transporter not configured")), None)
    ensures configured && !Truthy(req.to) ==> r == Resolved(Outcome(false, Some("Missing recipient")), None)
    ensures r.Rejected? <==> configured && Truthy(req.to) && req.paymentId.None?
    ensures r.Resolved? && r.attempted.Some? ==>
              && configured
              && r.attempted.value.to == req.to.value
              && r.attempted.value.paymentRef == ReceiptService.CleanPaymentId(req.paymentId.value)
              && r.attempted.value.attachments == Attachments(req.receiptPath, disk)
    ensures r.Resolved? ==> (r.outcome.success <==> r.attempted.Some? && delivery.Delivered?)
    ensures r.Resolved? && !r.outcome.success ==> r.outcome.error.Some? && r.outcome.error.value != ""
  {
    if !configured then Resolved(Outcome(false, Some("Email transporter not configured")), None)
    else if !Truthy(req.to) then Resolved(Outcome(false, Some("Missing recipient")), None)
    else if req.paymentId.None? then Rejected
    else
      var mail := Mail(req.to.value, Subject(req.campaignTitle), ReceiptService.CleanPaymentId(req.paymentId.value),
                       Attachments(req.receiptPath, disk));
      match delivery
      case Delivered => Resolved(Outcome(true, None), Some(mail))
      case DeliveryFailed(_) => Resolved(FailureOutcome(delivery, "send failed"), Some(mail))
  }

  // ---------------------------------------------------------------------
  // SMS

  /** The longest body handed to the SMS transport. */
  const SmsLimit := 160

  datatype SmsRequest = SmsRequest(toNumber: Option<string>, message: Option<string>, paymentId: Option<string>)

  datatype Sms = Sms(to: string, body: string)

  datatype SmsResult = SmsResult(outcome: Outcome, attempted: Option<Sms>)

  /** The reference `sendSms` appends: the cleaned payment id, or "" when
      no truthy id was given. */
  function SmsRef(paymentId: Option<string>): string {
    if Truthy(paymentId) then ReceiptService.CleanPaymentId(paymentId.value) else ""
  }

  /** `smsMessage`: the message followed by " | Ref: " and the reference
      when that is non-empty (a missing message then renders as
      "undefined"), else the message itself, which may be undefined. */
  function SmsBody(message: Option<string>, paymentId: Option<string>): (body: Option<string>)
    ensures SmsRef(paymentId) != "" ==> body == Some(ShowUndefined(message) + " | Ref: " + SmsRef(paymentId))
    ensures SmsRef(paymentId) == "" ==> body == message
  {
    var clean := SmsRef(paymentId);
    if clean != "" then Some(ShowUndefined(message) + " | Ref: " + clean) else message
  }

  /** What `undefined.slice(0, 160)` throws, caught by the `try` around the send. */
  const SliceOfUndefined := "Cannot read properties of undefined (reading 'slice')"

  /** How many UTF-16 code units a character takes: two for a character
      outside the Basic Multilingual Plane (a surrogate pair), else one. */
  function Units(c: char): nat {
    if c as int >= 0x1_0000 then 2 else 1
  }

  /** The length JavaScript reports for a string: its UTF-16 code units. */
  function Utf16Length(s: string): nat {
    if s == [] then 0 else Units(s[0]) + Utf16Length(s[1..])
  }

  /** The longest prefix of `s` that fits in `budget` code units. */
  function TakeUnits(s: string, budget: nat): (r: string)
    ensures r <= s && Utf16Length(r) <= budget
    ensures Utf16Length(s) <= budget ==> r == s
    ensures |r| < |s| ==> Utf16Length(r) + Units(s[|r|]) > budget
  {
    if s == [] || Units(s[0]) > budget then []
    else [s[0]] + TakeUnits(s[1..], budget - Units(s[0]))
  }

  /** `s.slice(0, 160)`: the characters whose code units all fall among the
      first 160. Beyond the limit nothing is kept, and a character that
      would straddle it is dropped whole. */
  function Truncate(s: string): (r: string)
    ensures r <= s && Utf16Length(r) <= SmsLimit
    ensures Utf16Length(s) <= SmsLimit ==> r == s
    ensures Utf16Length(s) > SmsLimit ==> SmsLimit - 1 <= Utf16Length(r)
  {
    var r := TakeUnits(s, SmsLimit);
    assert Utf16Length(s) > SmsLimit ==> r != s && |r| < |s| && Units(s[|r|]) <= 2;
    r
  }

  /** On text within the Basic Multilingual Plane code units are characters,
      and `slice(0, 160)` keeps the first 160 of them. */
  lemma {:induction false} TruncateBmp(s: string)
    requires forall i :: 0 <= i < |s| ==> s[i] as int < 0x1_0000
    ensures Utf16Length(s) == |s|
    ensures Truncate(s) == if |s| <= SmsLimit then s else s[..SmsLimit]
  {
    BmpTake(s, SmsLimit);
  }

  lemma {:induction false} BmpTake(s: string, budget: nat)
    requires forall i :: 0 <= i < |s| ==> s[i] as int < 0x1_0000
    ensures Utf16Length(s) == |s|
    ensures TakeUnits(s, budget) == if |s| <= budget then s else s[..budget]
  {
    if s != [] {
      assert forall i :: 0 <= i < |s[1..]| ==> s[1..][i] == s[i + 1];
      if budget == 0 {
        BmpTake(s[1..], 0);
      } else {
        BmpTake(s[1..], budget - 1);
        if |s| > budget {
          assert s[..budget] == [s[0]] + s[1..][..budget - 1];
        }
      }
    }
  }

  /** `sendSms`: the client is checked before the number. A message that is
      undefined with no reference to append makes `.slice` throw, which is
      caught: nothing is sent. Otherwise the truncated body is handed to the
      transport, and a transport error is caught. */
  function SendSms(configured: bool, req: SmsRequest, delivery: Delivery): (r: SmsResult)
    ensures !configured ==> r == SmsResult(Outcome(false, Some("Twilio not configured")), None)
    ensures configured && !Truthy(req.toNumber) ==> r == SmsResult(Outcome(false, Some("Missing toNumber")), None)
    ensures configured && Truthy(req.toNumber) && SmsBody(req.message, req.paymentId).None? ==>
              r == SmsResult(Outcome(false, Some(SliceOfUndefined)), None)
    ensures r.attempted.Some? <==> configured && Truthy(req.toNumber) && SmsBody(req.message, req.paymentId).Some?
    ensures r.attempted.Some? ==>
              && r.attempted.value.to == req.toNumber.value
              && r.attempted.value.body == Truncate(SmsBody(req.message, req.paymentId).value)
    ensures r.outcome.success <==> r.attempted.Some? && delivery.Delivered?
    ensures !r.outcome.success ==> r.outcome.error.Some? && r.outcome.error.value != ""
  {
    if !configured then SmsResult(Outcome(false, Some("Twilio not configured")), None)
    else if !Truthy(req.toNumber) then SmsResult(Outcome(false, Some("Missing toNumber")), None)
    else match SmsBody(req.message, req.paymentId)
      case None => SmsResult(Outcome(false, Some(SliceOfUndefined)), None)
      case Some(body) =>
        var sms := Sms(req.toNumber.value, Truncate(body));
        match delivery
        case Delivered => SmsResult(Outcome(true, None), Some(sms))
        case DeliveryFailed(_) => SmsResult(FailureOutcome(delivery, "sms failed"), Some(sms))
  }

  /** For a gateway-generated payment id the reference appended to the body
      is exactly the id's numeric suffix. */
  lemma SmsBodyGeneratedRef(message: Option<string>, n: nat)
    ensures SmsBody(message, Some(MockPhonepe.PayPrefix + NatToString(n))) == Some(ShowUndefined(message) + " | Ref: " + NatToString(n))
  {
    ReceiptService.CleanGeneratedPaymentId(n);
    NatToStringDigits(n);
  }
}
