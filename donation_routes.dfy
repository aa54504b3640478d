/** backend/routes/donationRoutes.js: campaigns (donation requests) and the
    donations paid into them. Every handler takes the authenticated caller
    as a `Principal`; the admin-only routes answer 403 to anyone else, as
    `adminAuthMiddleware` does. A store call that throws is a `Fault`
    parameter naming the step that fails. */
module DonationRoutes {
  import opened Common
  import opened Documents
  import MockPhonepe
  import ReceiptService
  import NotificationService

  // ---------------------------------------------------------------------
  // The ledger

  /** The sum of the amounts of the donations recorded (in `order`) for campaign `cid`. */
  function CampaignTotal(ds: map<Id, Donation>, order: seq<Id>, cid: Id): int {
    if order == [] then 0
    else
      var k := |order| - 1;
      CampaignTotal(ds, order[..k], cid) + (if order[k] in ds && ds[order[k]].requestId == cid then ds[order[k]].amount else 0)
  }

  /** Every campaign's `collectedAmount` is the sum of its donations. */
  predicate Balanced(cs: map<Id, Campaign>, ds: map<Id, Donation>, order: seq<Id>) {
    forall cid :: cid in cs ==> cs[cid].collectedAmount == CampaignTotal(ds, order, cid)
  }

  /** `findByIdAndUpdate(requestId, { $inc: { collectedAmount: amount } })`:
      one atomic step, and no change when there is no such campaign. */
  function Settle(cs: map<Id, Campaign>, rid: Id, amount: int): (r: map<Id, Campaign>)
    ensures r.Keys == cs.Keys
    ensures forall cid :: cid in cs && cid != rid ==> r[cid] == cs[cid]
    ensures rid in cs ==> r[rid] == cs[rid].(collectedAmount := cs[rid].collectedAmount + amount)
  {
    if rid in cs then cs[rid := cs[rid].(collectedAmount := cs[rid].collectedAmount + amount)] else cs
  }

  /** Storing a record under an id the log does not hold yet leaves every total as it was. */
  lemma {:induction false} TotalFrame(ds: map<Id, Donation>, order: seq<Id>, id: Id, d: Donation, cid: Id)
    requires id !in order
    ensures CampaignTotal(ds[id := d], order, cid) == CampaignTotal(ds, order, cid)
  {
    if order != [] {
      var k := |order| - 1;
      assert id !in order[..k];
      TotalFrame(ds, order[..k], id, d, cid);
    }
  }

  /** Recording a new donation adds its amount to its own campaign's total only. */
  lemma TotalAppend(ds: map<Id, Donation>, order: seq<Id>, id: Id, d: Donation, cid: Id)
    requires id !in order
    ensures CampaignTotal(ds[id := d], order + [id], cid) == CampaignTotal(ds, order, cid) + (if d.requestId == cid then d.amount else 0)
  {
    assert (order + [id])[..|order|] == order;
    TotalFrame(ds, order, id, d, cid);
  }

  /** Recording a donation and then applying its `$inc` keeps the ledger balanced. */
  lemma SettleKeepsBalance(cs: map<Id, Campaign>, ds: map<Id, Donation>, order: seq<Id>, id: Id, d: Donation)
    requires Balanced(cs, ds, order) && id !in order
    ensures Balanced(Settle(cs, d.requestId, d.amount), ds[id := d], order + [id])
  {
    forall cid | cid in cs {
      TotalAppend(ds, order, id, d, cid);
    }
  }

  /** When the `$inc` does not happen, the campaign's `collectedAmount` falls
      short of its donations by exactly the recorded amount. */
  lemma UnsettledGap(cs: map<Id, Campaign>, ds: map<Id, Donation>, order: seq<Id>, id: Id, d: Donation)
    requires Balanced(cs, ds, order) && id !in order && d.requestId in cs
    ensures CampaignTotal(ds[id := d], order + [id], d.requestId) == cs[d.requestId].collectedAmount + d.amount
  {
    TotalAppend(ds, order, id, d, d.requestId);
  }

  /** A settled payment: the donation recorded under `id`, and its `$inc`. */
  datatype Payment = Payment(id: Id, donation: Donation)

  /** The ledger after settling each payment in turn. */
  function SettleAll(cs: map<Id, Campaign>, ds: map<Id, Donation>, order: seq<Id>, ps: seq<Payment>): (map<Id, Campaign>, map<Id, Donation>, seq<Id>) {
    if ps == [] then (cs, ds, order)
    else
      var k := |ps| - 1;
      var prev := SettleAll(cs, ds, order, ps[..k]);
      (Settle(prev.0, ps[k].donation.requestId, ps[k].donation.amount), prev.1[ps[k].id := ps[k].donation], prev.2 + [ps[k].id])
  }

  /** The ids of a run of payments. */
  function PaymentIds(ps: seq<Payment>): seq<Id> {
    seq(|ps|, j requires 0 <= j < |ps| => ps[j].id)
  }

  /** Over any run of completed verifies, each with a new donation id, the
      ledger stays balanced. */
  lemma {:induction false} SettleAllKeepsBalance(cs: map<Id, Campaign>, ds: map<Id, Donation>, order: seq<Id>, ps: seq<Payment>)
    requires Balanced(cs, ds, order)
    requires NoDups(PaymentIds(ps)) && forall j :: 0 <= j < |ps| ==> ps[j].id !in order
    ensures var r := SettleAll(cs, ds, order, ps);
            Balanced(r.0, r.1, r.2) && r.2 == order + PaymentIds(ps)
  {
    if ps != [] {
      var k := |ps| - 1;
      assert PaymentIds(ps[..k]) == PaymentIds(ps)[..k];
      NoDupsPrefix(PaymentIds(ps), k);
      SettleAllKeepsBalance(cs, ds, order, ps[..k]);
      var prev := SettleAll(cs, ds, order, ps[..k]);
      LastNotInPrefix(PaymentIds(ps));
      assert ps[k].id !in prev.2;
      SettleKeepsBalance(prev.0, prev.1, prev.2, ps[k].id, ps[k].donation);
      assert PaymentIds(ps) == PaymentIds(ps[..k]) + [ps[k].id];
    }
  }

  // ---------------------------------------------------------------------
  // Campaigns

  /** The form fields of a new campaign; `targetAmount` is absent when not sent. */
  datatype CampaignForm = CampaignForm(title: Option<string>, description: Option<string>, targetAmount: Option<int>, deadline: Option<int>)

  /** The most images one request may upload. */
  const MaxImages := 5

  /** A new campaign: nothing collected yet, open for donations, one image
      reference per uploaded file, in upload order. */
  function NewCampaign(form: CampaignForm, files: seq<string>): (c: Campaign)
    requires Truthy(form.title) && form.targetAmount.Some?
    ensures c.collectedAmount == 0 && c.status == Active
    ensures c.title == form.title.value && c.targetAmount == form.targetAmount.value && c.deadline == form.deadline
    ensures c.description == (if form.description.Some? then form.description.value else "")
    ensures |c.images| == |files| && forall i :: 0 <= i < |files| ==> c.images[i] == "/uploads/" + files[i]
  {
    var images := seq(|files|, i requires 0 <= i < |files| => "/uploads/" + files[i]);
    Campaign(form.title.value, if form.description.Some? then form.description.value else "",
             form.targetAmount.value, form.deadline, images, 0, Active)
  }

  /** `POST /request`: the admin gate, then the upload limit, then the
      schema's required `title` and `targetAmount`. */
  method CreateCampaign(st: Store, p: Principal, form: CampaignForm, files: seq<string>, newId: Id) returns (r: Response<Id>)
    requires st.Valid() && newId !in st.campaignOrder
    modifies st`campaigns, st`campaignOrder
    ensures st.Valid()
    ensures p.role != Admin ==> r == Err(403, AdminsOnly)
    ensures p.role == Admin && |files| > MaxImages ==> r == Err(500, "Unexpected field")
    ensures p.role == Admin && |files| <= MaxImages && !(Truthy(form.title) && form.targetAmount.Some?) ==> r == Err(500, "Server error")
    ensures r.Ok? <==> p.role == Admin && |files| <= MaxImages && Truthy(form.title) && form.targetAmount.Some?
    ensures r.Ok? ==> (r == Ok(201, newId)
                       && st.campaigns == old(st.campaigns)[newId := NewCampaign(form, files)]
                       && st.campaignOrder == old(st.campaignOrder) + [newId])
    ensures r.Err? ==> st.campaigns == old(st.campaigns) && st.campaignOrder == old(st.campaignOrder)
    ensures (old(Balanced(st.campaigns, st.donations, st.donationOrder)) && CampaignTotal(st.donations, st.donationOrder, newId) == 0)
              ==> Balanced(st.campaigns, st.donations, st.donationOrder)
  {
    if p.role != Admin {
      return Err(403, AdminsOnly);
    }
    if |files| > MaxImages {
      return Err(500, "Unexpected field");
    }
    if !Truthy(form.title) || form.targetAmount.None? {
      return Err(500, "Server error");
    }
    AppendFresh(st.campaignOrder, newId);
    st.campaigns := st.campaigns[newId := NewCampaign(form, files)];
    st.campaignOrder := st.campaignOrder + [newId];
    r := Ok(201, newId);
  }

  /** What `find(filter)` keeps: every campaign for an admin, active ones otherwise. */
  function Listable(cs: map<Id, Campaign>, role: Role): Id -> bool {
    id => id in cs && (role == Admin || cs[id].status == Active)
  }

  /** `GET /requests`: the campaigns the caller may see, newest first. */
  function ListCampaigns(st: Store, p: Principal): (r: seq<Id>)
    reads st
    requires st.Valid()
    ensures forall id :: id in r <==> id in st.campaigns && (p.role == Admin || st.campaigns[id].status == Active)
    ensures NoDups(r) && NewestFirstOf(r, st.campaignOrder)
  {
    var keep := Listable(st.campaigns, p.role);
    NewestFirstMembers(st.campaignOrder, keep);
    NewestFirstOrder(st.campaignOrder, keep);
    NewestFirst(st.campaignOrder, keep)
  }

  /** `PATCH /request/:id/close`: whatever the current status, the campaign
      ends up closed; nothing else about it changes. */
  method CloseCampaign(st: Store, p: Principal, id: Id) returns (r: Response<string>)
    requires st.Valid()
    modifies st`campaigns
    ensures st.Valid()
    ensures p.role != Admin ==> r == Err(403, AdminsOnly) && st.campaigns == old(st.campaigns)
    ensures p.role == Admin && id !in old(st.campaigns) ==> r == Err(404, "Not found") && st.campaigns == old(st.campaigns)
    ensures p.role == Admin && id in old(st.campaigns) ==>
              r == Ok(200, "Closed successfully") && st.campaigns == old(st.campaigns)[id := old(st.campaigns)[id].(status := Closed)]
    ensures Balanced(st.campaigns, st.donations, st.donationOrder) <==> old(Balanced(st.campaigns, st.donations, st.donationOrder))
  {
    if p.role != Admin {
      return Err(403, AdminsOnly);
    }
    if id !in st.campaigns {
      return Err(404, "Not found");
    }
    st.campaigns := st.campaigns[id := st.campaigns[id].(status := Closed)];
    r := Ok(200, "Closed successfully");
  }

  /** `DELETE /request/:id`: the campaign goes; its donations stay. */
  method DeleteCampaign(st: Store, p: Principal, id: Id) returns (r: Response<string>)
    requires st.Valid()
    modifies st`campaigns
    ensures st.Valid()
    ensures p.role != Admin ==> r == Err(403, AdminsOnly) && st.campaigns == old(st.campaigns)
    ensures p.role == Admin && id !in old(st.campaigns) ==> r == Err(404, "Not found") && st.campaigns == old(st.campaigns)
    ensures p.role == Admin && id in old(st.campaigns) ==> r == Ok(200, "Deleted") && st.campaigns == old(st.campaigns) - {id}
    ensures old(Balanced(st.campaigns, st.donations, st.donationOrder)) ==> Balanced(st.campaigns, st.donations, st.donationOrder)
  {
    if p.role != Admin {
      return Err(403, AdminsOnly);
    }
    if id !in st.campaigns {
      return Err(404, "Not found");
    }
    st.campaigns := st.campaigns - {id};
    r := Ok(200, "Deleted");
  }

  // ---------------------------------------------------------------------
  // Payment order

  datatype OrderReply = OrderReply(orderId: string, amount: int, currency: string, keyId: string)

  /** `POST /payment/order`: both fields must be truthy and the campaign must
      exist; the order echoes the amount. `keyEnv` is `MOCK_KEY_ID`. */
  function CreateOrder(st: Store, amount: Option<int>, requestId: Option<Id>, now: nat, keyEnv: Option<string>): (r: Response<OrderReply>)
    reads st
    ensures !TruthyNum(amount) || !Truthy(requestId) ==> r == Err(400, "Missing params")
    ensures TruthyNum(amount) && Truthy(requestId) && requestId.value !in st.campaigns ==> r == Err(404, "Campaign not found")
    ensures r.Ok? <==> TruthyNum(amount) && Truthy(requestId) && requestId.value in st.campaigns
    ensures r.Ok? ==> r.status == 200 && r.value.amount == amount.value && r.value.currency == "INR"
                      && StartsWith(r.value.orderId, MockPhonepe.OrderPrefix)
                      && r.value.keyId == (if Truthy(keyEnv) then keyEnv.value else "MOCK_KEY")
  {
    if !TruthyNum(amount) || !Truthy(requestId) then Err(400, "Missing params")
    else if requestId.value !in st.campaigns then Err(404, "Campaign not found")
    else
      var order := MockPhonepe.CreateMockOrder(amount.value, now);
      Ok(200, OrderReply(order.id, order.amount, order.currency, OrElse(keyEnv, "MOCK_KEY")))
  }

  // ---------------------------------------------------------------------
  // Payment verify

  /** The request body of `POST /payment/verify`. */
  datatype VerifyBody = VerifyBody(
    orderId: Option<string>,
    requestId: Option<Id>,
    amount: Option<int>,
    paymentId: Option<string>,
    signature: Option<string>)

  /** Which store call throws, if any: saving the donation, saving its
      receipt path (inside the receipt step's `try`), the `$inc`, or reading
      the campaign back for the e-mail. */
  datatype Fault = NoFault | SaveThrows | ReceiptSaveThrows | IncrementThrows | CampaignReadThrows

  /** The receipt path the stored donation ends up with: the generated one,
      unless saving it threw, in which case the record keeps none while the
      handler's own `receiptPath` variable still holds it. */
  function StoredReceiptPath(stream: ReceiptService.Stream, id: Id, fault: Fault): (rp: Option<string>)
    ensures fault != ReceiptSaveThrows ==> rp == ReceiptPathAfter(stream, id)
    ensures fault == ReceiptSaveThrows ==> rp.None?
  {
    if fault == ReceiptSaveThrows then None else ReceiptPathAfter(stream, id)
  }

  /** The notifications a handler hands to the senders. */
  datatype Dispatch = Dispatch(email: Option<NotificationService.EmailRequest>, sms: Option<NotificationService.SmsRequest>)

  const NoDispatch := Dispatch(None, None)

  predicate HasVerifyFields(b: VerifyBody) {
    Truthy(b.orderId) && Truthy(b.requestId) && TruthyNum(b.amount)
  }

  /** The payment id recorded: the one sent, else the one the gateway stub
      makes up. It is never empty. */
  function LivePaymentId(b: VerifyBody, now: nat): (pid: string)
    requires HasVerifyFields(b)
    ensures pid != ""
    ensures Truthy(b.paymentId) ==> pid == b.paymentId.value
    ensures !Truthy(b.paymentId) ==> pid == MockPhonepe.PayPrefix + NatToString(now)
  {
    var v := MockPhonepe.VerifyMockPayment(b.orderId.value, now);
    if Truthy(b.paymentId) then b.paymentId.value else v.paymentId
  }

  /** The donation the live handler saves: the caller as donor, the sent
      signature or none at all (the stub's verification result has none). */
  function LiveDonation(p: Principal, b: VerifyBody, now: nat, receiptPath: Option<string>): (d: Donation)
    requires HasVerifyFields(b)
    ensures d.donorId == p.id && d.requestId == b.requestId.value && d.amount == b.amount.value
    ensures d.razorpayPaymentId == Some(LivePaymentId(b, now)) && d.razorpayOrderId == b.orderId
    ensures d.razorpaySignature == (if Truthy(b.signature) then b.signature else None)
    ensures d.receiptPath == receiptPath
  {
    Donation(p.id, b.requestId.value, b.amount.value, Some(LivePaymentId(b, now)), b.orderId,
             if Truthy(b.signature) then b.signature else None, receiptPath)
  }

  /** `donation.save()` of a new record under the fresh id `id`. */
  method SaveDonation(st: Store, id: Id, d: Donation)
    requires st.Valid() && id !in st.donationOrder
    modifies st`donations, st`donationOrder
    ensures st.Valid()
    ensures st.donationOrder == old(st.donationOrder) + [id] && st.donations == old(st.donations)[id := d]
  {
    AppendFresh(st.donationOrder, id);
    st.donations := st.donations[id := d];
    st.donationOrder := st.donationOrder + [id];
  }

  /** `donation.receiptPath = path; donation.save()`, done only when a path was produced. */
  method KeepReceiptPath(st: Store, id: Id, receiptPath: Option<string>)
    requires st.Valid() && id in st.donations
    modifies st`donations
    ensures st.Valid()
    ensures st.donations == if receiptPath.Some? then old(st.donations)[id := old(st.donations)[id].(receiptPath := receiptPath)]
                            else old(st.donations)
  {
    if receiptPath.Some? {
      st.donations := st.donations[id := st.donations[id].(receiptPath := receiptPath)];
    }
  }

  /** The `$inc` of the campaign's `collectedAmount`. */
  method Increment(st: Store, rid: Id, amount: int)
    requires st.Valid()
    modifies st`campaigns
    ensures st.Valid()
    ensures st.campaigns == Settle(old(st.campaigns), rid, amount)
  {
    st.campaigns := Settle(st.campaigns, rid, amount);
  }

  /** `receiptPath` after the receipt step: the saved file, or null when
      generating it failed. */
  function ReceiptPathAfter(stream: ReceiptService.Stream, id: Id): (rp: Option<string>)
    ensures rp.Some? <==> stream.Finished?
    ensures rp.Some? ==> rp.value == ReceiptService.ReceiptSavePath(id)
  {
    if stream.Finished? then Some(ReceiptService.ReceiptSavePath(id)) else None
  }

  /** Step 3 of the live handler: generate the receipt of a saved donation
      and keep its path; a failed generation is caught and leaves none. */
  method TryReceipt(st: Store, id: Id, stream: ReceiptService.Stream) returns (receiptPath: Option<string>)
    requires id != "" && id in st.donations
    ensures receiptPath == ReceiptPathAfter(stream, id)
  {
    var res := ReceiptService.GenerateReceiptPdf(st, id, stream);
    receiptPath := if res.Saved? then Some(res.path) else None;
  }

  /** `${firstname || ""} ${lastname || ""}`.trim() || name || "Donor". */
  function LiveDonorName(p: Principal): (n: string)
    ensures n != ""
  {
    var full := Trim(OrElse(p.firstname, "") + " " + OrElse(p.lastname, ""));
    if full != "" then full else OrElse(p.name, "Donor")
  }

  /** The e-mail the live handler asks for. */
  function LiveEmail(p: Principal, b: VerifyBody, now: nat, cs: map<Id, Campaign>, receiptPath: Option<string>): (e: NotificationService.EmailRequest)
    requires HasVerifyFields(b)
    ensures e.to == Some(p.email) && e.paymentId == Some(LivePaymentId(b, now)) && e.receiptPath == receiptPath
    ensures e.campaignTitle.Some? && e.campaignTitle.value != ""
  {
    var rid := b.requestId.value;
    var title := if rid in cs && cs[rid].title != "" then cs[rid].title else "Donation Campaign";
    NotificationService.EmailRequest(Some(p.email), Some(LiveDonorName(p)), b.amount.value, Some(title), Some(LivePaymentId(b, now)), receiptPath)
  }

  /** The SMS text of the live handler up to its reference. */
  function LiveSmsLead(p: Principal, amount: int, title: string): string {
    "\U{2705} Thank you " + ShowUndefined(Or(p.firstname, p.name)) + "! \U{20B9}" + IntToString(amount)
      + " donated to " + title + ". "
  }

  /** The campaign title the SMS names. */
  function SmsTitle(cs: map<Id, Campaign>, rid: Id): string {
    if rid in cs && cs[rid].title != "" then cs[rid].title else "Donation"
  }

  /** The SMS the live handler asks for. */
  function LiveSms(p: Principal, b: VerifyBody, now: nat, cs: map<Id, Campaign>): (s: NotificationService.SmsRequest)
    requires HasVerifyFields(b) && Truthy(p.contactNo)
    ensures s.toNumber == p.contactNo && s.paymentId == Some(LivePaymentId(b, now)) && s.message.Some?
  {
    var pid := LivePaymentId(b, now);
    var lead := LiveSmsLead(p, b.amount.value, SmsTitle(cs, b.requestId.value));
    NotificationService.SmsRequest(p.contactNo, Some(lead + "Ref: " + ReceiptService.CleanPaymentId(pid)), Some(pid))
  }

  /** The live SMS names the payment twice: once in the message the handler
      writes, once more where `sendSms` appends it. */
  lemma LiveSmsRepeatsRef(p: Principal, b: VerifyBody, now: nat, cs: map<Id, Campaign>)
    requires HasVerifyFields(b) && Truthy(p.contactNo)
    requires ReceiptService.CleanPaymentId(LivePaymentId(b, now)) != ""
    ensures var s := LiveSms(p, b, now, cs);
            var c := ReceiptService.CleanPaymentId(LivePaymentId(b, now));
            NotificationService.SmsBody(s.message, s.paymentId)
              == Some(LiveSmsLead(p, b.amount.value, SmsTitle(cs, b.requestId.value)) + "Ref: " + c + " | Ref: " + c)
  {
  }

  /** `POST /payment/verify`, the mounted handler. After the field check it
      calls the stub verifier (which always succeeds), saves the donation,
      tries the receipt (a failure only leaves `receiptPath` unset; a failure
      to save the path leaves it off the record but not off the e-mail), applies
      the `$inc` without looking at the campaign's existence or status,
      reads the campaign back for the e-mail and, when the caller has a
      contact number, the SMS. A later failure answers 500 but keeps what
      was already written. `now` is the clock the stub reads. */
  method VerifyPayment(st: Store, p: Principal, b: VerifyBody, now: nat, newId: Id, stream: ReceiptService.Stream, fault: Fault)
    returns (r: Response<string>, sent: Dispatch)
    requires st.Valid() && newId != "" && newId !in st.donationOrder
    modifies st`donations, st`donationOrder, st`campaigns
    ensures st.Valid()
    ensures !HasVerifyFields(b) ==> r == Err(400, "Missing fields")
    ensures HasVerifyFields(b) && r.Err? ==> r == Err(500, "Payment verification failed")
    ensures r.Ok? <==> HasVerifyFields(b) && (fault == NoFault || fault == ReceiptSaveThrows)
    ensures r.Ok? ==> r.status == 200
    ensures !HasVerifyFields(b) || fault == SaveThrows ==>
              st.donations == old(st.donations) && st.donationOrder == old(st.donationOrder) && st.campaigns == old(st.campaigns)
    ensures HasVerifyFields(b) && fault != SaveThrows ==>
              && st.donationOrder == old(st.donationOrder) + [newId]
              && st.donations == old(st.donations)[newId := LiveDonation(p, b, now, StoredReceiptPath(stream, newId, fault))]
              && st.campaigns == (if fault == IncrementThrows then old(st.campaigns)
                                  else Settle(old(st.campaigns), b.requestId.value, b.amount.value))
    ensures sent.email.Some? <==> r.Ok?
    ensures r.Ok? ==> sent.email == Some(LiveEmail(p, b, now, st.campaigns, ReceiptPathAfter(stream, newId)))
    ensures sent.sms.Some? <==> r.Ok? && Truthy(p.contactNo)
    ensures sent.sms.Some? ==> sent.sms == Some(LiveSms(p, b, now, st.campaigns))
    ensures (old(Balanced(st.campaigns, st.donations, st.donationOrder)) && fault != IncrementThrows)
              ==> Balanced(st.campaigns, st.donations, st.donationOrder)
  {
    sent := NoDispatch;
    if !HasVerifyFields(b) {
      return Err(400, "Missing fields"), sent;
    }
    if fault == SaveThrows {
      return Err(500, "Payment verification failed"), sent;
    }
    ghost var cs0, ds0, order0 := st.campaigns, st.donations, st.donationOrder;
    // Step 2: save the donation
    SaveDonation(st, newId, LiveDonation(p, b, now, None));
    // Step 3: the receipt
    var receiptPath := TryReceipt(st, newId, stream);
    if fault != ReceiptSaveThrows {
      KeepReceiptPath(st, newId, receiptPath);
    }
    ghost var d := LiveDonation(p, b, now, StoredReceiptPath(stream, newId, fault));
    assert st.donations == ds0[newId := d];
    // Step 4: the increment
    if fault == IncrementThrows {
      return Err(500, "Payment verification failed"), sent;
    }
    Increment(st, b.requestId.value, b.amount.value);
    if Balanced(cs0, ds0, order0) {
      SettleKeepsBalance(cs0, ds0, order0, newId, d);
    }
    r, sent := LiveNotify(p, b, now, st.campaigns, receiptPath, fault);
  }

  /** Steps 5 and 6 of the live handler: read the campaign back for the
      e-mail and, when the caller has a contact number, send the SMS; a
      failed read answers 500 and sends nothing. */
  method LiveNotify(p: Principal, b: VerifyBody, now: nat, cs: map<Id, Campaign>, receiptPath: Option<string>, fault: Fault)
    returns (r: Response<string>, sent: Dispatch)
    requires HasVerifyFields(b)
    ensures r.Ok? <==> fault != CampaignReadThrows
    ensures r.Err? ==> r == Err(500, "Payment verification failed") && sent == NoDispatch
    ensures r.Ok? ==> r.status == 200 && sent.email == Some(LiveEmail(p, b, now, cs, receiptPath))
    ensures sent.sms.Some? <==> r.Ok? && Truthy(p.contactNo)
    ensures sent.sms.Some? ==> sent.sms == Some(LiveSms(p, b, now, cs))
  {
    sent := NoDispatch;
    // Step 5: the e-mail
    if fault == CampaignReadThrows {
      return Err(500, "Payment verification failed"), sent;
    }
    sent := sent.(email := Some(LiveEmail(p, b, now, cs, receiptPath)));
    // Step 6: the SMS
    if Truthy(p.contactNo) {
      sent := sent.(sms := Some(LiveSms(p, b, now, cs)));
    }
    r := Ok(200, "Payment verified (MOCK), Donation saved, Email & Receipt sent");
  }

  /** Steps 5 and 6 for a caller as the auth middleware loads it: the
      `contact_no` read is always undefined, so the SMS is never sent, and
      the e-mail greets the donor by first and last name or as "Donor". */
  method LiveNotifyAsWritten(id: Id, u: User, b: VerifyBody, now: nat, cs: map<Id, Campaign>, receiptPath: Option<string>, fault: Fault)
    returns (r: Response<string>, sent: Dispatch)
    requires HasVerifyFields(b)
    ensures r.Ok? <==> fault != CampaignReadThrows
    ensures sent.sms.None?
    ensures r.Ok? ==> sent.email.Some?
    ensures r.Ok? ==> var full := Trim(OrElse(u.firstname, "") + " " + OrElse(u.lastname, ""));
                      sent.email.value.name == Some(if full != "" then full else "Donor")
  {
    r, sent := LiveNotify(Authenticated(id, u), b, now, cs, receiptPath, fault);
  }

  /** The e-mail of a completed live verify never makes `sendDonationEmail`
      reject: its payment id is always present. */
  lemma LiveEmailResolves(p: Principal, b: VerifyBody, now: nat, cs: map<Id, Campaign>, rp: Option<string>,
                          configured: bool, disk: set<string>, delivery: NotificationService.Delivery)
    requires HasVerifyFields(b)
    ensures NotificationService.SendDonationEmail(configured, LiveEmail(p, b, now, cs, rp), disk, delivery).Resolved?
  {
  }

  // ---------------------------------------------------------------------
  // Listings and receipts

  /** The donations of one donor. */
  function ByDonor(ds: map<Id, Donation>, donor: Id): Id -> bool {
    id => id in ds && ds[id].donorId == donor
  }

  /** `GET /my`: the caller's donations, newest first. */
  function MyDonations(st: Store, p: Principal): (r: seq<Id>)
    reads st
    requires st.Valid()
    ensures forall id :: id in r <==> id in st.donations && st.donations[id].donorId == p.id
    ensures NoDups(r) && NewestFirstOf(r, st.donationOrder)
  {
    var keep := ByDonor(st.donations, p.id);
    NewestFirstMembers(st.donationOrder, keep);
    NewestFirstOrder(st.donationOrder, keep);
    NewestFirst(st.donationOrder, keep)
  }

  /** The donations paid into one campaign. */
  function ForCampaign(ds: map<Id, Donation>, rid: Id): Id -> bool {
    id => id in ds && ds[id].requestId == rid
  }

  /** `donations.reduce((sum, d) => sum + Number(d.amount), 0)`. */
  function SumAmounts(ds: map<Id, Donation>, ids: seq<Id>): int
    requires forall id :: id in ids ==> id in ds
  {
    if ids == [] then 0 else ds[ids[0]].amount + SumAmounts(ds, ids[1..])
  }

  /** Summing the newest-first listing gives the campaign's total. */
  lemma {:induction false} ListingSum(ds: map<Id, Donation>, order: seq<Id>, rid: Id)
    ensures NewestFirstMembersIn(ds, order, rid)
    ensures SumAmounts(ds, NewestFirst(order, ForCampaign(ds, rid))) == CampaignTotal(ds, order, rid)
  {
    NewestFirstMembers(order, ForCampaign(ds, rid));
    if order != [] {
      var k := |order| - 1;
      var last := order[k];
      ListingSum(ds, order[..k], rid);
      var rest := NewestFirst(order[..k], ForCampaign(ds, rid));
      assert NewestFirst(order, ForCampaign(ds, rid)) == (if last in ds && ds[last].requestId == rid then [last] else []) + rest;
      assert ForCampaign(ds, rid)(last) == (last in ds && ds[last].requestId == rid);
      if last in ds && ds[last].requestId == rid {
        var l := [last] + rest;
        assert l[0] == last && l[1..] == rest;
        assert SumAmounts(ds, l) == ds[last].amount + SumAmounts(ds, rest);
        assert CampaignTotal(ds, order, rid) == CampaignTotal(ds, order[..k], rid) + ds[last].amount;
      } else {
        assert CampaignTotal(ds, order, rid) == CampaignTotal(ds, order[..k], rid);
        assert [] + rest == rest;
      }
    }
  }

  /** Every id of the campaign's listing names a stored donation. */
  predicate NewestFirstMembersIn(ds: map<Id, Donation>, order: seq<Id>, rid: Id) {
    forall id :: id in NewestFirst(order, ForCampaign(ds, rid)) ==> id in ds
  }

  datatype DonationSummary = DonationSummary(donations: seq<Id>, total: nat, totalAmount: int)

  /** `GET /admin/:requestId/donations`: the campaign's donations newest
      first, how many there are and what they add up to. */
  function AdminDonations(st: Store, p: Principal, rid: Id): (r: Response<DonationSummary>)
    reads st
    requires st.Valid()
    ensures p.role != Admin ==> r == Err(403, AdminsOnly)
    ensures p.role == Admin ==> r.Ok? && r.status == 200
    ensures r.Ok? ==>
              && (forall id :: id in r.value.donations <==> id in st.donations && st.donations[id].requestId == rid)
              && NoDups(r.value.donations) && NewestFirstOf(r.value.donations, st.donationOrder)
              && r.value.total == |r.value.donations|
              && r.value.total == |set id | id in st.donations && st.donations[id].requestId == rid|
              && r.value.totalAmount == CampaignTotal(st.donations, st.donationOrder, rid)
  {
    if p.role != Admin then Err(403, AdminsOnly)
    else
      var keep := ForCampaign(st.donations, rid);
      NewestFirstMembers(st.donationOrder, keep);
      NewestFirstOrder(st.donationOrder, keep);
      ListingSum(st.donations, st.donationOrder, rid);
      var listing := NewestFirst(st.donationOrder, keep);
      ListingCount(st.donations, st.donationOrder, rid);
      Ok(200, DonationSummary(listing, |listing|, SumAmounts(st.donations, listing)))
  }

  /** The campaign's listing has one entry per donation paid into it. */
  lemma ListingCount(ds: map<Id, Donation>, order: seq<Id>, rid: Id)
    requires Indexed(ds, order)
    ensures |NewestFirst(order, ForCampaign(ds, rid))| == |set id | id in ds && ds[id].requestId == rid|
  {
    var keep := ForCampaign(ds, rid);
    var listing := NewestFirst(order, keep);
    NewestFirstMembers(order, keep);
    NewestFirstOrder(order, keep);
    NoDupsCard(listing);
    var a, b := set id | id in listing, set id | id in ds && ds[id].requestId == rid;
    forall id | id in b ensures id in a {
      assert keep(id);
    }
    assert a == b;
  }

  /** On a balanced ledger the admin total of a campaign is its `collectedAmount`. */
  lemma AdminTotalIsCollected(st: Store, p: Principal, rid: Id)
    requires st.Valid() && Balanced(st.campaigns, st.donations, st.donationOrder) && p.role == Admin && rid in st.campaigns
    ensures AdminDonations(st, p, rid).Ok?
    ensures AdminDonations(st, p, rid).value.totalAmount == st.campaigns[rid].collectedAmount
  {
  }

  /** How a receipt route answers. The status and message of a JSON reply;
      or a PDF stream; or, as the donor route is written, headers with no
      body at all. `alsoStreams` marks a JSON reply after which a read
      stream on the missing file is piped into the response anyway. */
  datatype ReceiptReply =
    | Json(status: nat, success: bool, message: string, alsoStreams: bool)
    | PdfFile(path: string, inline: bool, downloadName: Option<string>)
    | HeadersOnly(path: string, inline: bool)

  /** The path without its trailing "/" characters. */
  function StripTrailingSlashes(s: string): (t: string)
    ensures t <= s && (t == [] || t[|t| - 1] != '/')
    ensures forall i :: |t| <= i < |s| ==> s[i] == '/'
  {
    if s != [] && s[|s| - 1] == '/' then StripTrailingSlashes(s[..|s| - 1]) else s
  }

  /** The characters after the last "/" (all of `s` when it has none). */
  function LastSegment(s: string): (b: string)
    ensures |b| <= |s| && b == s[|s| - |b|..]
    ensures '/' !in b
    ensures |b| < |s| ==> s[|s| - |b| - 1] == '/'
  {
    if s == [] then []
    else if s[|s| - 1] == '/' then []
    else
      var b := LastSegment(s[..|s| - 1]) + [s[|s| - 1]];
      assert b[..|b| - 1] == s[..|s| - 1][|s| - |b|..];
      b
  }

  /** `path.basename` (POSIX): trailing "/" characters are ignored and the
      last segment of what remains is returned, so "a/x.pdf/" gives "x.pdf"
      and "/" gives "". */
  function Basename(s: string): (b: string)
    ensures '/' !in b
    ensures '/' !in s ==> b == s
    ensures var t := StripTrailingSlashes(s);
            && |b| <= |t| && b == t[|t| - |b|..]
            && (|b| < |t| ==> t[|t| - |b| - 1] == '/')
            && (t != [] ==> b != [])
  {
    var t := StripTrailingSlashes(s);
    assert '/' !in s ==> t == s;
    LastSegment(t)
  }

  /** A trailing "/" does not change the base name. */
  lemma BasenameIgnoresTrailingSlash(s: string)
    ensures Basename(s + "/") == Basename(s)
  {
    assert (s + "/")[..|s|] == s;
    assert StripTrailingSlashes(s + "/") == StripTrailingSlashes(s);
  }

  /** Where a receipt route looks for the file of a stored receipt path:
      `path.join` of the receipts directory and the base name, which drops
      an empty or "." name and resolves "..". The working directory is left
      off. */
  function ServedPath(receiptPath: string): (served: string)
    ensures var b := Basename(receiptPath);
            b != "" && b != "." && b != ".." ==> served == ReceiptService.ReceiptsDir + "/" + b
  {
    var b := Basename(receiptPath);
    if b == "" || b == "." then ReceiptService.ReceiptsDir
    else if b == ".." then "uploads"
    else ReceiptService.ReceiptsDir + "/" + b
  }

  /** For a receipt the service wrote, the served path is the saved one. */
  lemma {:induction false} ServedPathIsSavePath(id: Id)
    requires '/' !in id
    ensures ServedPath(ReceiptService.ReceiptSavePath(id)) == ReceiptService.ReceiptSavePath(id)
  {
    var name := ReceiptService.ReceiptFileName(id);
    assert '/' !in name;
    assert name[..8] == "receipt_" && |name| >= 12;
    BasenameAfterSlash(ReceiptService.ReceiptsDir, name);
    assert ReceiptService.ReceiptSavePath(id) == ReceiptService.ReceiptsDir + "/" + name;
  }

  /** A non-empty name without "/" after a "/" is the base name. */
  lemma BasenameAfterSlash(dir: string, name: string)
    requires '/' !in name && name != []
    ensures Basename(dir + "/" + name) == name
  {
    var s := dir + "/" + name;
    assert s[|s| - 1] == name[|name| - 1] != '/';
    assert StripTrailingSlashes(s) == s;
    var b := Basename(s);
    var k := |s| - |name|;
    assert s[k - 1] == '/';
    assert forall i :: k <= i < |s| ==> s[i] == name[i - k];
    assert |b| == |name|;
    assert b == s[|s| - |name|..] == name;
  }

  /** `GET /receipt/:id` as written: only the donor may see a receipt, an
      unset path gets a 200 with `success: false`, and then, when the file
      exists, the headers are set but the stream is never piped, while the
      branch for a missing file answers 404 and pipes the missing file. */
  function DonorReceiptAsWritten(st: Store, p: Principal, id: Id, view: bool, disk: set<string>): (r: ReceiptReply)
    reads st
    ensures id !in st.donations || st.donations[id].donorId != p.id ==>
              r == Json(404, false, "Receipt not found or access denied", false)
    ensures id in st.donations && st.donations[id].donorId == p.id && !Truthy(st.donations[id].receiptPath) ==>
              r == Json(200, false, "Receipt generation failed. Please contact support or try donating again.", false)
    ensures !r.PdfFile?
  {
    if id !in st.donations || st.donations[id].donorId != p.id then Json(404, false, "Receipt not found or access denied", false)
    else if !Truthy(st.donations[id].receiptPath) then
      Json(200, false, "Receipt generation failed. Please contact support or try donating again.", false)
    else
      var path := ServedPath(st.donations[id].receiptPath.value);
      if path in disk then HeadersOnly(path, view) else Json(404, false, "Receipt file missing on server", true)
  }

  /** The donor route as evidently intended: the file is streamed when it
      exists and a missing file is a plain 404. */
  function DonorReceipt(st: Store, p: Principal, id: Id, view: bool, disk: set<string>): (r: ReceiptReply)
    reads st
    ensures id !in st.donations || st.donations[id].donorId != p.id ==>
              r == Json(404, false, "Receipt not found or access denied", false)
    ensures id in st.donations && st.donations[id].donorId == p.id && !Truthy(st.donations[id].receiptPath) ==>
              r == Json(200, false, "Receipt generation failed. Please contact support or try donating again.", false)
    ensures r.PdfFile? <==> id in st.donations && st.donations[id].donorId == p.id && Truthy(st.donations[id].receiptPath)
                            && ServedPath(st.donations[id].receiptPath.value) in disk
    ensures r.PdfFile? ==> r.path == ServedPath(st.donations[id].receiptPath.value) && r.inline == view && r.path in disk
    ensures !r.HeadersOnly? && (r.Json? ==> !r.alsoStreams)
  {
    if id !in st.donations || st.donations[id].donorId != p.id then Json(404, false, "Receipt not found or access denied", false)
    else if !Truthy(st.donations[id].receiptPath) then
      Json(200, false, "Receipt generation failed. Please contact support or try donating again.", false)
    else
      var path := ServedPath(st.donations[id].receiptPath.value);
      if path in disk then PdfFile(path, view, None) else Json(404, false, "Receipt file missing on server", false)
  }

  /** A donor whose receipt file is on disk gets no PDF from the route as written. */
  lemma DonorReceiptNeverSendsFile(st: Store, p: Principal, id: Id, view: bool, disk: set<string>)
    requires id in st.donations && st.donations[id].donorId == p.id && Truthy(st.donations[id].receiptPath)
    requires ServedPath(st.donations[id].receiptPath.value) in disk
    ensures DonorReceiptAsWritten(st, p, id, view, disk).HeadersOnly?
    ensures DonorReceipt(st, p, id, view, disk).PdfFile?
  {
  }

  /** `GET /admin/receipt/:donationId`: any donation, downloaded under an admin file name. */
  function AdminReceipt(st: Store, p: Principal, id: Id, disk: set<string>): (r: ReceiptReply)
    reads st
    ensures p.role != Admin ==> r == Json(403, false, AdminsOnly, false)
    ensures p.role == Admin && id !in st.donations ==> r == Json(404, false, "Donation not found", false)
    ensures p.role == Admin && id in st.donations && !Truthy(st.donations[id].receiptPath) ==>
              r == Json(404, false, "No receipt generated for this donation", false)
    ensures r.PdfFile? <==> p.role == Admin && id in st.donations && Truthy(st.donations[id].receiptPath)
                            && ServedPath(st.donations[id].receiptPath.value) in disk
    ensures r.PdfFile? ==> r.path == ServedPath(st.donations[id].receiptPath.value) && !r.inline
                           && r.downloadName == Some("admin-receipt-" + id + ".pdf")
    ensures !r.HeadersOnly?
  {
    if p.role != Admin then Json(403, false, AdminsOnly, false)
    else if id !in st.donations then Json(404, false, "Donation not found", false)
    else if !Truthy(st.donations[id].receiptPath) then Json(404, false, "No receipt generated for this donation", false)
    else
      var path := ServedPath(st.donations[id].receiptPath.value);
      if path in disk then PdfFile(path, false, Some("admin-receipt-" + id + ".pdf"))
      else Json(404, false, "Receipt file missing on server", false)
  }

  /** `GET /admin/receipt/:donationId/view`: the same file, shown inline. */
  function AdminReceiptView(st: Store, p: Principal, id: Id, disk: set<string>): (r: ReceiptReply)
    reads st
    ensures p.role != Admin ==> r == Json(403, false, AdminsOnly, false)
    ensures p.role == Admin && (id !in st.donations || !Truthy(st.donations[id].receiptPath)) ==>
              r == Json(404, false, "Receipt not found", false)
    ensures r.PdfFile? <==> p.role == Admin && id in st.donations && Truthy(st.donations[id].receiptPath)
                            && ServedPath(st.donations[id].receiptPath.value) in disk
    ensures r.PdfFile? ==> r.path == ServedPath(st.donations[id].receiptPath.value) && r.inline && r.downloadName.None?
    ensures !r.HeadersOnly?
  {
    if p.role != Admin then Json(403, false, AdminsOnly, false)
    else if id !in st.donations || !Truthy(st.donations[id].receiptPath) then Json(404, false, "Receipt not found", false)
    else
      var path := ServedPath(st.donations[id].receiptPath.value);
      if path in disk then PdfFile(path, true, None) else Json(404, false, "File missing", false)
  }
}
