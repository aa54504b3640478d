/** backend/routes/paymentRoutes.js, the older payment router. `server.js`
    does not mount it, but it is kept next to the live one. Its order route
    is the live one line for line (`DonationRoutes.CreateOrder`). Its verify
    route differs from the live one: it takes the `razorpay_` field names as
    aliases, makes up both the payment id and the signature when either is
    missing, applies the `$inc` before the receipt, and a failed campaign
    read only skips the e-mail and the SMS. */
module PaymentRoutes {
  import opened Common
  import opened Documents
  import MockPhonepe
  import ReceiptService
  import NotificationService
  import DonationRoutes

  /** The request body; each gateway field has a `razorpay_` alias. */
  datatype VerifyBody = VerifyBody(
    orderId: Option<string>,
    paymentId: Option<string>,
    signature: Option<string>,
    requestId: Option<Id>,
    amount: Option<int>,
    razorpayOrderId: Option<string>,
    razorpayPaymentId: Option<string>,
    razorpaySignature: Option<string>)

  /** `orderId || razorpay_order_id`, and so on: the plain name wins when truthy. */
  function OrderOf(b: VerifyBody): Option<string> { Or(b.orderId, b.razorpayOrderId) }
  function PaymentOf(b: VerifyBody): Option<string> { Or(b.paymentId, b.razorpayPaymentId) }
  function SignatureOf(b: VerifyBody): Option<string> { Or(b.signature, b.razorpaySignature) }

  predicate HasFields(b: VerifyBody) {
    Truthy(OrderOf(b)) && Truthy(b.requestId) && TruthyNum(b.amount)
  }

  datatype Credentials = Credentials(paymentId: string, signature: string)

  /** The payment id and signature recorded. Both sent ones are kept only
      when both are truthy; otherwise both come from `createMockPayment`,
      so a sent payment id is dropped when the signature is missing.
      `randPay` and `randSig` are the two random draws. */
  function CredentialsOf(b: VerifyBody, randPay: nat, randSig: nat): (c: Credentials)
    requires HasFields(b) && randPay < MockPhonepe.RandomBound && randSig < MockPhonepe.RandomBound
    ensures c.paymentId != "" && c.signature != ""
    ensures Truthy(PaymentOf(b)) && Truthy(SignatureOf(b)) ==> c == Credentials(PaymentOf(b).value, SignatureOf(b).value)
    ensures !(Truthy(PaymentOf(b)) && Truthy(SignatureOf(b))) ==>
              c == Credentials(MockPhonepe.PayPrefix + NatToString(randPay), MockPhonepe.SignaturePrefix + NatToString(randSig))
  {
    if !Truthy(PaymentOf(b)) || !Truthy(SignatureOf(b)) then
      var m := MockPhonepe.CreateMockPayment(OrderOf(b).value, randPay, randSig);
      Credentials(m.paymentId, m.signature)
    else Credentials(PaymentOf(b).value, SignatureOf(b).value)
  }

  /** The donation this handler records. */
  function AltDonation(p: Principal, b: VerifyBody, c: Credentials, receiptPath: Option<string>): (d: Donation)
    requires HasFields(b)
    ensures d.donorId == p.id && d.requestId == b.requestId.value && d.amount == b.amount.value
    ensures d.razorpayPaymentId == Some(c.paymentId) && d.razorpayOrderId == OrderOf(b)
    ensures d.razorpaySignature == Some(c.signature) && d.receiptPath == receiptPath
  {
    Donation(p.id, b.requestId.value, b.amount.value, Some(c.paymentId), OrderOf(b), Some(c.signature), receiptPath)
  }

  /** The `payment` object of the reply; the status is always "SUCCESS". */
  datatype PaymentEcho = PaymentEcho(id: string, orderId: string, signature: string, status: string)

  datatype VerifyReply = VerifyReply(donationId: Id, payment: PaymentEcho)

  /** The campaign title the e-mail and the SMS name. */
  function TitleOf(cs: map<Id, Campaign>, rid: Id): (t: string)
    ensures t != ""
  {
    if rid in cs && cs[rid].title != "" then cs[rid].title else "Donation"
  }

  /** The e-mail this handler asks for; `name` is the caller's `name`, which may be absent. */
  function AltEmail(p: Principal, b: VerifyBody, c: Credentials, cs: map<Id, Campaign>, receiptPath: Option<string>): (e: NotificationService.EmailRequest)
    requires HasFields(b)
    ensures e.to == Some(p.email) && e.name == p.name && e.amount == b.amount.value
    ensures e.paymentId == Some(c.paymentId) && e.receiptPath == receiptPath
    ensures e.campaignTitle == Some(TitleOf(cs, b.requestId.value))
  {
    NotificationService.EmailRequest(Some(p.email), p.name, b.amount.value, Some(TitleOf(cs, b.requestId.value)), Some(c.paymentId), receiptPath)
  }

  /** The SMS text: the payment id is written into the message, and no
      `paymentId` is passed, so `sendSms` appends no reference. */
  function AltSmsMessage(p: Principal, amount: int, title: string, paymentId: string): string {
    "Thank you " + ShowUndefined(p.name) + " for donating \U{20B9}" + IntToString(amount) + " to " + title
      + ". Payment ID: " + paymentId
  }

  function AltSms(p: Principal, b: VerifyBody, c: Credentials, cs: map<Id, Campaign>): (s: NotificationService.SmsRequest)
    requires HasFields(b) && Truthy(p.phone)
    ensures s.toNumber == p.phone && s.paymentId.None?
    ensures s.message == Some(AltSmsMessage(p, b.amount.value, TitleOf(cs, b.requestId.value), c.paymentId))
  {
    NotificationService.SmsRequest(p.phone, Some(AltSmsMessage(p, b.amount.value, TitleOf(cs, b.requestId.value), c.paymentId)), None)
  }

  /** The SMS body is the handler's own message, unchanged. */
  lemma AltSmsBodyIsMessage(p: Principal, b: VerifyBody, c: Credentials, cs: map<Id, Campaign>)
    requires HasFields(b) && Truthy(p.phone)
    ensures NotificationService.SmsBody(AltSms(p, b, c, cs).message, None)
              == Some(AltSmsMessage(p, b.amount.value, TitleOf(cs, b.requestId.value), c.paymentId))
  {
  }

  /** `POST /verify` of this router. Creating the donation or the `$inc`
      throwing answers 500 ("Verification failed"); a failed receipt, or a
      failed save of its path (`ReceiptSaveThrows`), is caught; a failed campaign read (`CampaignReadThrows`) skips the
      e-mail and the SMS but the reply is still a success. */
  method VerifyPaymentAlt(st: Store, p: Principal, b: VerifyBody, randPay: nat, randSig: nat, newId: Id,
                          stream: ReceiptService.Stream, fault: DonationRoutes.Fault)
    returns (r: Response<VerifyReply>, sent: DonationRoutes.Dispatch)
    requires st.Valid() && newId != "" && newId !in st.donationOrder
    requires randPay < MockPhonepe.RandomBound && randSig < MockPhonepe.RandomBound
    modifies st`donations, st`donationOrder, st`campaigns
    ensures st.Valid()
    ensures !HasFields(b) ==> r == Err(400, "Missing verification fields")
    ensures HasFields(b) && r.Err? ==> r == Err(500, "Verification failed")
    ensures r.Ok? <==> HasFields(b) && fault != DonationRoutes.SaveThrows && fault != DonationRoutes.IncrementThrows
    ensures r.Ok? ==>
              var c := CredentialsOf(b, randPay, randSig);
              r == Ok(200, VerifyReply(newId, PaymentEcho(c.paymentId, OrderOf(b).value, c.signature, "SUCCESS")))
    ensures !HasFields(b) || fault == DonationRoutes.SaveThrows ==>
              st.donations == old(st.donations) && st.donationOrder == old(st.donationOrder) && st.campaigns == old(st.campaigns)
    ensures HasFields(b) && fault == DonationRoutes.IncrementThrows ==>
              && st.donationOrder == old(st.donationOrder) + [newId]
              && st.donations == old(st.donations)[newId := AltDonation(p, b, CredentialsOf(b, randPay, randSig), None)]
              && st.campaigns == old(st.campaigns)
    ensures r.Ok? ==>
              && st.donationOrder == old(st.donationOrder) + [newId]
              && st.donations == old(st.donations)[newId := AltDonation(p, b, CredentialsOf(b, randPay, randSig),
                                                                        DonationRoutes.StoredReceiptPath(stream, newId, fault))]
              && st.campaigns == DonationRoutes.Settle(old(st.campaigns), b.requestId.value, b.amount.value)
    ensures sent.email.Some? <==> r.Ok? && fault != DonationRoutes.CampaignReadThrows
    ensures sent.email.Some? ==>
              sent.email == Some(AltEmail(p, b, CredentialsOf(b, randPay, randSig), st.campaigns, DonationRoutes.ReceiptPathAfter(stream, newId)))
    ensures sent.sms.Some? <==> sent.email.Some? && Truthy(p.phone)
    ensures sent.sms.Some? ==> sent.sms == Some(AltSms(p, b, CredentialsOf(b, randPay, randSig), st.campaigns))
    ensures (old(DonationRoutes.Balanced(st.campaigns, st.donations, st.donationOrder)) && r.Ok?)
              ==> DonationRoutes.Balanced(st.campaigns, st.donations, st.donationOrder)
  {
    sent := DonationRoutes.NoDispatch;
    if !HasFields(b) {
      return Err(400, "Missing verification fields"), sent;
    }
    var c := CredentialsOf(b, randPay, randSig);
    if fault == DonationRoutes.SaveThrows {
      return Err(500, "Verification failed"), sent;
    }
    ghost var cs0, ds0, order0 := st.campaigns, st.donations, st.donationOrder;
    DonationRoutes.SaveDonation(st, newId, AltDonation(p, b, c, None));
    if fault == DonationRoutes.IncrementThrows {
      return Err(500, "Verification failed"), sent;
    }
    DonationRoutes.Increment(st, b.requestId.value, b.amount.value);
    var receiptPath := DonationRoutes.TryReceipt(st, newId, stream);
    if fault != DonationRoutes.ReceiptSaveThrows {
      DonationRoutes.KeepReceiptPath(st, newId, receiptPath);
    }
    ghost var d := AltDonation(p, b, c, DonationRoutes.StoredReceiptPath(stream, newId, fault));
    assert st.donations == ds0[newId := d];
    if DonationRoutes.Balanced(cs0, ds0, order0) {
      DonationRoutes.SettleKeepsBalance(cs0, ds0, order0, newId, d);
    }
    sent := AltNotify(p, b, c, st.campaigns, receiptPath, fault);
    r := Ok(200, VerifyReply(newId, PaymentEcho(c.paymentId, OrderOf(b).value, c.signature, "SUCCESS")));
  }

  /** The e-mail and the SMS of this handler: both are skipped when the
      campaign read throws; the SMS goes only to a caller with a phone. */
  method AltNotify(p: Principal, b: VerifyBody, c: Credentials, cs: map<Id, Campaign>, receiptPath: Option<string>,
                   fault: DonationRoutes.Fault)
    returns (sent: DonationRoutes.Dispatch)
    requires HasFields(b)
    ensures sent.email.Some? <==> fault != DonationRoutes.CampaignReadThrows
    ensures sent.email.Some? ==> sent.email == Some(AltEmail(p, b, c, cs, receiptPath))
    ensures sent.sms.Some? <==> sent.email.Some? && Truthy(p.phone)
    ensures sent.sms.Some? ==> sent.sms == Some(AltSms(p, b, c, cs))
  {
    sent := DonationRoutes.NoDispatch;
    if fault != DonationRoutes.CampaignReadThrows {
      sent := sent.(email := Some(AltEmail(p, b, c, cs, receiptPath)));
      if Truthy(p.phone) {
        sent := sent.(sms := Some(AltSms(p, b, c, cs)));
      }
    }
  }

  /** The same for a caller as the auth middleware loads it: `phone` and
      `name` are always undefined, so no SMS is sent and the e-mail carries
      no name. */
  method AltNotifyAsWritten(id: Id, u: User, b: VerifyBody, c: Credentials, cs: map<Id, Campaign>, receiptPath: Option<string>,
                            fault: DonationRoutes.Fault)
    returns (sent: DonationRoutes.Dispatch)
    requires HasFields(b)
    ensures sent.email.Some? <==> fault != DonationRoutes.CampaignReadThrows
    ensures sent.sms.None?
    ensures sent.email.Some? ==> sent.email.value.name.None? && sent.email.value.to == Some(u.email)
  {
    sent := AltNotify(Authenticated(id, u), b, c, cs, receiptPath, fault);
  }

  /** The two verify handlers, given the same order, campaign and amount,
      record donations that move every campaign total alike. */
  lemma SameLedgerEffect(p: Principal, live: DonationRoutes.VerifyBody, alt: VerifyBody, now: nat, c: Credentials,
                         rp1: Option<string>, rp2: Option<string>,
                         ds: map<Id, Donation>, order: seq<Id>, id: Id, cid: Id)
    requires DonationRoutes.HasVerifyFields(live) && HasFields(alt)
    requires live.requestId == alt.requestId && live.amount == alt.amount
    requires id !in order
    ensures DonationRoutes.CampaignTotal(ds[id := DonationRoutes.LiveDonation(p, live, now, rp1)], order + [id], cid)
              == DonationRoutes.CampaignTotal(ds[id := AltDonation(p, alt, c, rp2)], order + [id], cid)
  {
    DonationRoutes.TotalAppend(ds, order, id, DonationRoutes.LiveDonation(p, live, now, rp1), cid);
    DonationRoutes.TotalAppend(ds, order, id, AltDonation(p, alt, c, rp2), cid);
  }
}
