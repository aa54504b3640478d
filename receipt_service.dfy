/** The field derivation of `generateReceiptPdf` (backend/utils/receiptService.js):
    which donation is loaded, how the donor's name, the campaign title and the
    gateway references are chosen and cleaned, the receipt number and the file
    the PDF is written to. Drawing the PDF is not modelled; whether writing
    the file finishes or fails is a parameter. */
module ReceiptService {
  import opened Common
  import opened Documents
  import MockPhonepe

  /** The receipts directory, relative to the server's working directory. */
  const ReceiptsDir := "uploads/receipts"

  // ---------------------------------------------------------------------
  // `s.replace(/^MOCK_(A|B|...)_?/i, '')`

  /** The first alternative, in the pattern's order, that `t` starts with. */
  function FirstAlt(t: string, alts: seq<string>): (r: Option<string>)
    ensures r.Some? ==> r.value in alts && StartsWithCI(t, r.value)
    ensures r.None? ==> forall a :: a in alts ==> !StartsWithCI(t, a)
  {
    if alts == [] then None
    else if StartsWithCI(t, alts[0]) then Some(alts[0])
    else FirstAlt(t, alts[1..])
  }

  /** Removes "MOCK_", the first matching alternative and at most one "_",
      all at the start and ignoring case; a string without that prefix is
      returned as it is. */
  function StripMockPrefix(s: string, alts: seq<string>): string
  {
    if !StartsWithCI(s, "MOCK_") then s
    else match FirstAlt(s[5..], alts)
      case None => s
      case Some(a) => DropUnderscore(s[5 + |a|..])
  }

  /** `paymentId.replace(/^MOCK_(PAY|PAYMENT)_?/i, '')`. */
  function CleanPaymentId(s: string): string {
    StripMockPrefix(s, ["PAY", "PAYMENT"])
  }

  /** `orderId.replace(/^MOCK_(ORDER)_?/i, '')`. */
  function CleanOrderId(s: string): string {
    StripMockPrefix(s, ["ORDER"])
  }

  /** Drops one leading underscore, as the optional `_?` does. */
  function DropUnderscore(s: string): string {
    if s != [] && s[0] == '_' then s[1..] else s
  }

  /** Matching a concatenated prefix is matching its two parts in turn. */
  lemma StartsWithCIConcat(s: string, p: string, q: string)
    ensures StartsWithCI(s, p + q) <==> StartsWithCI(s, p) && StartsWithCI(s[|p|..], q)
  {
    if StartsWithCI(s, p) && StartsWithCI(s[|p|..], q) {
      forall i | 0 <= i < |p + q| ensures SameLetter(s[i], (p + q)[i]) {
        if i >= |p| {
          assert s[i] == s[|p|..][i - |p|];
        }
      }
    }
    if StartsWithCI(s, p + q) {
      forall i | 0 <= i < |q| ensures SameLetter(s[|p|..][i], q[i]) {
        assert s[|p|..][i] == s[|p| + i] && q[i] == (p + q)[|p| + i];
      }
    }
  }

  /** The payment-id cleaning rule in full: only a leading, case-insensitive
      "MOCK_PAY" and one optional "_" go. Because `PAY` is tried first and
      then `_?` always succeeds, the `PAYMENT` alternative never decides
      anything. */
  lemma CleanPaymentIdRule(s: string)
    ensures CleanPaymentId(s) == if StartsWithCI(s, "MOCK_PAY") then DropUnderscore(s[8..]) else s
  {
    StartsWithCIConcat(s, "MOCK_", "PAY");
    assert "MOCK_" + "PAY" == "MOCK_PAY";
    if StartsWithCI(s, "MOCK_") {
      var t := s[5..];
      StartsWithCIConcat(t, "PAY", "MENT");
      assert "PAY" + "MENT" == "PAYMENT";
      if StartsWithCI(t, "PAY") {
        assert FirstAlt(t, ["PAY", "PAYMENT"]) == Some("PAY");
      } else {
        assert FirstAlt(t, ["PAY", "PAYMENT"]) == None;
      }
    }
  }

  /** "MOCK_PAYMENT_7" loses only "MOCK_PAY": the regular expression stops
      at the first alternative, so the cleaned id is "MENT_7", not "7". */
  lemma CleanPaymentIdQuirk()
    ensures CleanPaymentId("MOCK_PAYMENT_7") == "MENT_7"
  {
    CleanPaymentIdRule("MOCK_PAYMENT_7");
    assert StartsWithCI("MOCK_PAYMENT_7", "MOCK_PAY");
    assert "MOCK_PAYMENT_7"[8..] == "MENT_7";
  }

  /** The order-id cleaning rule: a leading, case-insensitive "MOCK_ORDER"
      and one optional "_" go; anything else is returned unchanged. */
  lemma CleanOrderIdRule(s: string)
    ensures CleanOrderId(s) == if StartsWithCI(s, "MOCK_ORDER") then DropUnderscore(s[10..]) else s
  {
    StartsWithCIConcat(s, "MOCK_", "ORDER");
    assert "MOCK_" + "ORDER" == "MOCK_ORDER";
    if StartsWithCI(s, "MOCK_") {
      var t := s[5..];
      if StartsWithCI(t, "ORDER") {
        assert FirstAlt(t, ["ORDER"]) == Some("ORDER");
      } else {
        assert FirstAlt(t, ["ORDER"]) == None;
      }
    }
  }

  /** Every payment id the gateway generates, from `createMockPayment` or
      `verifyMockPayment`, cleans to exactly its numeric suffix. */
  lemma CleanGeneratedPaymentId(n: nat)
    ensures CleanPaymentId(MockPhonepe.PayPrefix + NatToString(n)) == NatToString(n)
  {
    var s := MockPhonepe.PayPrefix + NatToString(n);
    CleanPaymentIdRule(s);
    assert StartsWithCI(s, "MOCK_PAY") by {
      forall i | 0 <= i < 8 ensures SameLetter(s[i], "MOCK_PAY"[i]) {
        assert s[i] == MockPhonepe.PayPrefix[i] == "MOCK_PAY"[i];
      }
    }
    var tail := "_" + NatToString(n);
    assert s == "MOCK_PAY" + tail;
    assert s[8..] == tail;
    assert DropUnderscore(tail) == NatToString(n);
  }

  /** Every order id `createMockOrder` generates cleans to its numeric suffix. */
  lemma CleanGeneratedOrderId(amount: int, now: nat)
    ensures CleanOrderId(MockPhonepe.CreateMockOrder(amount, now).id) == NatToString(now)
  {
    var s := MockPhonepe.CreateMockOrder(amount, now).id;
    CleanOrderIdRule(s);
    assert s == MockPhonepe.OrderPrefix + NatToString(now);
    assert s[10..] == "_" + NatToString(now);
  }

  // ---------------------------------------------------------------------
  // Field fallbacks

  /** The donor's display name: "first last" when either trimmed part is
      non-empty, else the e-mail, else the user name, else "Anonymous". A
      donor document that no longer exists reads as `{}`. */
  function DonorName(donor: Option<User>): string {
    match donor
    case None => "Anonymous"
    case Some(u) =>
      var first := Trim(OrElse(u.firstname, ""));
      var last := Trim(OrElse(u.lastname, ""));
      if first != "" || last != "" then Trim(first + " " + last)
      else if u.email != "" then u.email
      else if u.username != "" then u.username
      else "Anonymous"
  }

  /** Which name a receipt shows: both trimmed parts joined by one space, the
      one that is present, or the first non-empty fallback; never "". */
  lemma DonorNameChoice(u: User)
    ensures var first := Trim(OrElse(u.firstname, ""));
            var last := Trim(OrElse(u.lastname, ""));
            var r := DonorName(Some(u));
            && (first != "" && last != "" ==> r == first + " " + last)
            && (first != "" && last == "" ==> r == first)
            && (first == "" && last != "" ==> r == last)
            && (first == "" && last == "" ==>
                  r == (if u.email != "" then u.email else if u.username != "" then u.username else "Anonymous"))
            && r != ""
  {
    var first := Trim(OrElse(u.firstname, ""));
    var last := Trim(OrElse(u.lastname, ""));
    TrimIsTrimmed(OrElse(u.firstname, ""));
    TrimIsTrimmed(OrElse(u.lastname, ""));
    JoinTrimmed(first, last);
  }

  /** `donation.requestId?.title || "Donation"`. */
  function CampaignTitle(campaign: Option<Campaign>): string {
    if campaign.Some? && campaign.value.title != "" then campaign.value.title else "Donation"
  }

  /** The gateway fields of a loaded donation document, under every name the
      receipt code accepts; a document saved through Donation.js has only
      the `razorpay` ones. */
  datatype IdFields = IdFields(
    paymentId: Option<string>, razorpayPaymentId: Option<string>, paymentDotId: Option<string>, txnId: Option<string>,
    orderId: Option<string>, razorpayOrderId: Option<string>, paymentDotOrderId: Option<string>, order: Option<string>)

  function StoredIdFields(d: Donation): IdFields {
    IdFields(None, d.razorpayPaymentId, None, None, None, d.razorpayOrderId, None, None)
  }

  /** `paymentId || razorpayPaymentId || payment.id || txnId || "N/A"`. */
  function PaymentRef(f: IdFields): string {
    OrElse(Or(Or(Or(f.paymentId, f.razorpayPaymentId), f.paymentDotId), f.txnId), "N/A")
  }

  /** `orderId || razorpayOrderId || payment.orderId || order || "N/A"`. */
  function OrderRef(f: IdFields): string {
    OrElse(Or(Or(Or(f.orderId, f.razorpayOrderId), f.paymentDotOrderId), f.order), "N/A")
  }

  /** For a stored donation the fallback chains reduce to the `razorpay`
      field, or "N/A" when it is missing or empty. */
  lemma StoredRefs(d: Donation)
    ensures PaymentRef(StoredIdFields(d)) == OrElse(d.razorpayPaymentId, "N/A")
    ensures OrderRef(StoredIdFields(d)) == OrElse(d.razorpayOrderId, "N/A")
  {
  }

  // ---------------------------------------------------------------------
  // Receipt number and file

  /** `donationId.slice(-8).toUpperCase()`. */
  function ReceiptId(donationId: string): (r: string)
    ensures |r| == if |donationId| < 8 then |donationId| else 8
    ensures forall j :: |donationId| - |r| <= j < |donationId| ==> r[j - (|donationId| - |r|)] == UpperChar(donationId[j])
  {
    var k := if |donationId| < 8 then 0 else |donationId| - 8;
    Upper(donationId[k..])
  }

  function ReceiptFileName(donationId: Id): string {
    "receipt_" + donationId + ".pdf"
  }

  function ReceiptSavePath(donationId: Id): string {
    ReceiptsDir + "/" + ReceiptFileName(donationId)
  }

  /** The save path names the donation: a receipt path determines the donation id. */
  lemma SavePathInjective(a: Id, b: Id)
    requires ReceiptSavePath(a) == ReceiptSavePath(b)
    ensures a == b
  {
    var pa := ReceiptSavePath(a);
    var n := |ReceiptsDir + "/" + "receipt_"|;
    assert pa[n..|pa| - 4] == a;
    assert ReceiptSavePath(b)[n..|ReceiptSavePath(b)| - 4] == b;
  }

  // ---------------------------------------------------------------------
  // generateReceiptPdf

  /** What the PDF shows, as derived from the loaded documents. */
  datatype ReceiptFields = ReceiptFields(
    receiptId: string,
    donorName: string,
    donorEmail: string,
    campaignTitle: string,
    amount: int,
    paymentRef: string,
    orderRef: string)

  /** How writing the PDF stream ends. */
  datatype Stream = Finished | StreamError(message: string)

  /** The settled promise: the save path and what the receipt shows, or the
      error message it rejects with. */
  datatype ReceiptResult = Saved(path: string, fields: ReceiptFields) | Failed(error: string)

  /** The receipt shows the donation's own amount under its receipt number;
      the donor's e-mail falls back to "N/A" when the donor or the address
      is missing. */
  function FieldsOf(st: Store, donationId: Id): (f: ReceiptFields)
    reads st
    requires donationId in st.donations
    ensures var d := st.donations[donationId];
            && f.receiptId == ReceiptId(donationId) && f.amount == d.amount
            && (d.donorId in st.users && st.users[d.donorId].email != "" ==> f.donorEmail == st.users[d.donorId].email)
            && (d.donorId !in st.users || st.users[d.donorId].email == "" ==> f.donorEmail == "N/A")
  {
    var d := st.donations[donationId];
    var donor := if d.donorId in st.users then Some(st.users[d.donorId]) else None;
    var campaign := if d.requestId in st.campaigns then Some(st.campaigns[d.requestId]) else None;
    ReceiptFields(
      ReceiptId(donationId),
      DonorName(donor),
      if donor.Some? && donor.value.email != "" then donor.value.email else "N/A",
      CampaignTitle(campaign),
      d.amount,
      CleanPaymentId(PaymentRef(StoredIdFields(d))),
      CleanOrderId(OrderRef(StoredIdFields(d))))
  }

  /** A missing id and an unknown donation reject before anything is
      written; otherwise the promise resolves with the save path when the
      stream finishes and rejects with the stream's error. */
  function GenerateReceiptPdf(st: Store, donationId: Id, stream: Stream): (r: ReceiptResult)
    reads st
    ensures donationId == "" ==> r == Failed("donationId is required")
    ensures donationId != "" && donationId !in st.donations ==> r == Failed("Donation not found")
    ensures donationId != "" && donationId in st.donations ==>
              (r.Saved? <==> stream.Finished?)
              && (r.Saved? ==> r.path == ReceiptSavePath(donationId) && r.fields == FieldsOf(st, donationId))
              && (r.Failed? ==> r.error == stream.message)
  {
    if donationId == "" then Failed("donationId is required")
    else if donationId !in st.donations then Failed("Donation not found")
    else match stream
      case Finished => Saved(ReceiptSavePath(donationId), FieldsOf(st, donationId))
      case StreamError(m) => Failed(m)
  }
}
