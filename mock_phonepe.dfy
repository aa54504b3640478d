/** The stand-in payment gateway (backend/utils/mockPhonepe.js): three object
    constructors with no state. `Date.now()` and `Math.random()` become the
    parameters `now` and `rand`. */
module MockPhonepe {
  import opened Common

  datatype Order = Order(id: string, amount: int, currency: string, status: string)

  datatype Payment = Payment(paymentId: string, orderId: string, signature: string, status: string)

  /** What `verifyMockPayment` returns: it has no `signature` field. */
  datatype Verification = Verification(success: bool, message: string, orderId: string, paymentId: string)

  const OrderPrefix := "MOCK_ORDER_"
  const PayPrefix := "MOCK_PAY_"
  const SignaturePrefix := "MOCK_SIGNATURE_"

  /** `Math.floor(Math.random() * 9999999)` lies below this bound. */
  const RandomBound := 9999999

  /** A fresh order echoing the amount, in rupees, not yet paid. */
  function CreateMockOrder(amount: int, now: nat): (o: Order)
    ensures o.amount == amount && o.currency == "INR" && o.status == "CREATED"
    ensures StartsWith(o.id, OrderPrefix) && o.id[|OrderPrefix|..] == NatToString(now)
  {
    Order(OrderPrefix + NatToString(now), amount, "INR", "CREATED")
  }

  /** A completed payment for the order, with random-looking identifiers. */
  function CreateMockPayment(orderId: string, randPay: nat, randSig: nat): (p: Payment)
    requires randPay < RandomBound && randSig < RandomBound
    ensures p.orderId == orderId && p.status == "SUCCESS"
    ensures StartsWith(p.paymentId, PayPrefix) && p.paymentId[|PayPrefix|..] == NatToString(randPay)
    ensures StartsWith(p.signature, SignaturePrefix) && p.signature[|SignaturePrefix|..] == NatToString(randSig)
  {
    Payment(PayPrefix + NatToString(randPay), orderId, SignaturePrefix + NatToString(randSig), "SUCCESS")
  }

  /** Verification never fails: whatever the order id, the answer is success. */
  function VerifyMockPayment(orderId: string, now: nat): (v: Verification)
    ensures v.success && v.orderId == orderId
    ensures StartsWith(v.paymentId, PayPrefix) && v.paymentId[|PayPrefix|..] == NatToString(now)
  {
    Verification(true, "Mock payment verified", orderId, PayPrefix + NatToString(now))
  }

  /** Two orders get the same id exactly when they were created in the same
      millisecond. */
  lemma OrderIdsDistinct(a: int, b: int, nowA: nat, nowB: nat)
    ensures CreateMockOrder(a, nowA).id == CreateMockOrder(b, nowB).id <==> nowA == nowB
  {
    var x, y := CreateMockOrder(a, nowA).id, CreateMockOrder(b, nowB).id;
    if x == y {
      assert x[|OrderPrefix|..] == y[|OrderPrefix|..];
    }
    NatToStringInjective(nowA, nowB);
  }

  /** Two verifications carry the same payment id exactly when they were
      made in the same millisecond. */
  lemma VerifiedPaymentIdsDistinct(o1: string, o2: string, nowA: nat, nowB: nat)
    ensures VerifyMockPayment(o1, nowA).paymentId == VerifyMockPayment(o2, nowB).paymentId <==> nowA == nowB
  {
    var x, y := VerifyMockPayment(o1, nowA).paymentId, VerifyMockPayment(o2, nowB).paymentId;
    if x == y {
      assert x[|PayPrefix|..] == y[|PayPrefix|..];
    }
    NatToStringInjective(nowA, nowB);
  }

  /** An order id is never a payment id: the prefixes differ. */
  lemma OrderIdIsNoPaymentId(amount: int, now: nat, orderId: string, randPay: nat, randSig: nat)
    requires randPay < RandomBound && randSig < RandomBound
    ensures CreateMockOrder(amount, now).id != CreateMockPayment(orderId, randPay, randSig).paymentId
  {
    var x, y := CreateMockOrder(amount, now).id, CreateMockPayment(orderId, randPay, randSig).paymentId;
    assert x[5] == OrderPrefix[5] == 'O';
    assert y[5] == PayPrefix[5] == 'P';
  }
}
