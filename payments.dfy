/** Payments (app/routers/payments.py): a small state machine over the
    `payments` and `orders` tables. Creating a payment records it as
    pending, marks it paid and confirms its order; a refund is allowed only
    from paid, marks the payment refunded and cancels its order. */
module Payments {
  import opened Common
  import opened Platform

  /** `PaymentStatus` (app/models.py:25-29). */
  const PAYMENT_STATUSES: set<string> := {"pending", "paid", "failed", "refunded"}

  /** A `payments` row. */
  datatype Payment = Payment(
    id: string,
    orderId: string,
    userId: string,
    amount: real,
    paymentMethod: Option<string>,
    status: string,
    transactionId: Option<string>,
    createdAt: string)

  /** The `PaymentCreate` request body; its `user_id` is not used. */
  datatype PaymentRequest = PaymentRequest(orderId: string, userId: string, amount: real, paymentMethod: Option<string>)

  /** The body a successful refund returns. */
  datatype RefundReceipt = RefundReceipt(message: string, transactionId: Option<string>)

  /** `payment.payment_method or "mock_payment"`: None and "" both fall
      back. */
  function MethodOrDefault(m: Option<string>): (r: string)
    ensures m.Some? && m.value != "" ==> r == m.value
    ensures m == None || m == Some("") ==> r == "mock_payment"
    ensures r != ""
  {
    match m
    case Some(s) => if s != "" then s else "mock_payment"
    case None => "mock_payment"
  }

  /** `f"TX_{uuid.uuid4().hex[:8].upper()}"`, with the hex digits given. */
  function TransactionId(hex: string): (t: string)
    ensures |hex| >= 8 ==> |t| == 11
    ensures |t| >= 3 && t[..3] == "TX_"
    ensures |t| == 3 + (if |hex| >= 8 then 8 else |hex|)
    ensures forall i :: 3 <= i < |t| ==> t[i] == UpperChar(hex[i - 3])
    ensures (forall i :: 0 <= i < |hex| && i < 8 ==> IsHexChar(hex[i])) ==> forall i :: 3 <= i < |t| ==> IsUpperHexChar(t[i])
  {
    TaggedId("TX_", hex)
  }

  /** The row `create_payment` inserts, still pending. */
  function PendingPayment(user: User, req: PaymentRequest, id: string, hex: string, now: string): (p: Payment)
    ensures p.status == "pending" && p.userId == user.id && p.orderId == req.orderId && p.amount == req.amount
    ensures p.paymentMethod == Some(MethodOrDefault(req.paymentMethod))
    ensures p.transactionId == Some(TransactionId(hex))
  {
    Payment(id, req.orderId, user.id, req.amount, Some(MethodOrDefault(req.paymentMethod)), "pending",
            Some(TransactionId(hex)), now)
  }

  /** Every payment has a `PaymentStatus` value and belongs to the owner of
      an existing order. */
  ghost predicate LedgerValid(payments: map<string, Payment>, orders: map<string, OrderRow>) {
    forall pid :: pid in payments ==>
      && payments[pid].status in PAYMENT_STATUSES
      && payments[pid].orderId in orders
      && orders[payments[pid].orderId].userId == payments[pid].userId
  }

  /** Changing only order statuses and only payment statuses (to a
      `PaymentStatus` value) keeps the ledger valid. */
  lemma StatusChangesKeepValid(payments: map<string, Payment>, orders: map<string, OrderRow>,
                               pid: string, status: string, oid: string, orderStatus: string)
    requires LedgerValid(payments, orders)
    requires pid in payments && status in PAYMENT_STATUSES && oid in orders
    ensures LedgerValid(payments[pid := payments[pid].(status := status)], orders[oid := orders[oid].(status := orderStatus)])
  {
  }

  /** Recording a payment of the owner of an existing order, with a
      `PaymentStatus` value, and changing that order's status keeps the
      ledger valid. */
  lemma InsertKeepsValid(payments: map<string, Payment>, orders: map<string, OrderRow>,
                         pid: string, p: Payment, orderStatus: string)
    requires LedgerValid(payments, orders)
    requires p.status in PAYMENT_STATUSES && p.orderId in orders && orders[p.orderId].userId == p.userId
    ensures LedgerValid(payments[pid := p], orders[p.orderId := orders[p.orderId].(status := orderStatus)])
  {
  }

  class PaymentLedger {
    var payments: map<string, Payment>
    var orders: map<string, OrderRow>

    ghost predicate Valid()
      reads this
    {
      LedgerValid(payments, orders)
    }

    constructor(orders: map<string, OrderRow>)
      ensures Valid() && payments == map[] && this.orders == orders
    {
      payments := map[];
      this.orders := orders;
    }

    /** `create_payment`: the order must exist and belong to the caller,
        whatever the caller's role. The payment is inserted pending with a
        generated transaction id, then marked paid, and the order is
        confirmed whatever its status was. The database supplies the fresh
        payment id. */
    method CreatePayment(user: User, req: PaymentRequest, id: string, hex: string, now: string) returns (r: Result<Payment>)
      requires Valid() && id !in payments
      modifies this
      ensures Valid()
      ensures req.orderId !in old(orders) ==> r == Failure(NotFound("Order not found"))
      ensures req.orderId in old(orders) && old(orders)[req.orderId].userId != user.id ==>
                r == Failure(Forbidden("Not authorized to create payment for this order"))
      ensures r.Success? <==> req.orderId in old(orders) && old(orders)[req.orderId].userId == user.id
      ensures r.Failure? ==> payments == old(payments) && orders == old(orders)
      ensures r.Success? ==>
                && r.value == PendingPayment(user, req, id, hex, now).(status := "paid")
                && payments == old(payments)[id := r.value]
                && orders == old(orders)[req.orderId := old(orders)[req.orderId].(status := "confirmed")]
    {
      if req.orderId !in orders {
        return Failure(NotFound("Order not found"));
      }
      var order := orders[req.orderId];
      if order.userId != user.id {
        return Failure(Forbidden("Not authorized to create payment for this order"));
      }
      var paid := Record(id, PendingPayment(user, req, id, hex, now));
      r := Success(paid);
    }

    /** The successful path of `create_payment`: insert the pending row,
        mark it paid and confirm its order. */
    method Record(id: string, created: Payment) returns (paid: Payment)
      requires Valid() && created.orderId in orders && orders[created.orderId].userId == created.userId
      modifies this
      ensures Valid()
      ensures paid == created.(status := "paid")
      ensures payments == old(payments)[id := paid]
      ensures orders == old(orders)[created.orderId := old(orders)[created.orderId].(status := "confirmed")]
    {
      payments := payments[id := created];
      paid := created.(status := "paid");
      InsertKeepsValid(old(payments), orders, id, paid, "confirmed");
      payments := payments[id := paid];
      orders := orders[created.orderId := orders[created.orderId].(status := "confirmed")];
    }

    /** `refund_payment`: not found for an unknown id; only a paid payment
        may be refunded, and any other leaves everything unchanged. The
        payment becomes refunded and its order cancelled.
        No ownership or role check is made. */
    method Refund(paymentId: string) returns (r: Result<RefundReceipt>)
      requires Valid()
      modifies this
      ensures Valid()
      ensures paymentId !in old(payments) ==> r == Failure(NotFound("Payment not found"))
      ensures paymentId in old(payments) && old(payments)[paymentId].status != "paid" ==>
                r == Failure(BadRequest("Can only refund paid payments"))
      ensures r.Success? <==> paymentId in old(payments) && old(payments)[paymentId].status == "paid"
      ensures r.Failure? ==> payments == old(payments) && orders == old(orders)
      ensures r.Success? ==>
                && var p := old(payments)[paymentId];
                && r.value == RefundReceipt("Payment refunded successfully", p.transactionId)
                && payments == old(payments)[paymentId := p.(status := "refunded")]
                && orders == old(orders)[p.orderId := old(orders)[p.orderId].(status := "cancelled")]
    {
      if paymentId !in payments {
        return Failure(NotFound("Payment not found"));
      }
      var payment := payments[paymentId];
      if payment.status != "paid" {
        return Failure(BadRequest("Can only refund paid payments"));
      }
      StatusChangesKeepValid(payments, orders, paymentId, "refunded", payment.orderId, "cancelled");
      payments := payments[paymentId := payment.(status := "refunded")];
      orders := orders[payment.orderId := orders[payment.orderId].(status := "cancelled")];
      return Success(RefundReceipt("Payment refunded successfully", payment.transactionId));
    }

    /** `get_payment`: not found for an unknown id; a "user" may read only
        their own payments. */
    function GetPayment(user: User, paymentId: string): (r: Result<Payment>)
      reads this
      ensures paymentId !in payments ==> r == Failure(NotFound("Payment not found"))
      ensures paymentId in payments && user.role == "user" && payments[paymentId].userId != user.id ==>
                r == Failure(Forbidden("Not authorized to view this payment"))
      ensures r.Success? <==> paymentId in payments && (user.role != "user" || payments[paymentId].userId == user.id)
      ensures r.Success? ==> r.value == payments[paymentId]
    {
      if paymentId !in payments then Failure(NotFound("Payment not found"))
      else if user.role == "user" && payments[paymentId].userId != user.id then
        Failure(Forbidden("Not authorized to view this payment"))
      else Success(payments[paymentId])
    }

    /** `get_payments`: a "user" sees their own payments, every other role
        sees all. */
    function VisiblePayments(user: User): (r: map<string, Payment>)
      reads this
      ensures forall pid :: pid in r ==> pid in payments && r[pid] == payments[pid]
      ensures user.role == "user" ==> forall pid :: pid in payments ==> (pid in r <==> payments[pid].userId == user.id)
      ensures user.role != "user" ==> r == payments
    {
      if user.role == "user" then map pid | pid in payments && payments[pid].userId == user.id :: payments[pid]
      else payments
    }
  }

  /** Listing and reading agree for every caller: a payment is listed
      exactly when reading it by id succeeds. */
  lemma ListingAgreesWithGet(ledger: PaymentLedger, user: User, paymentId: string)
    ensures paymentId in ledger.VisiblePayments(user) <==> ledger.GetPayment(user, paymentId).Success?
  {
  }

  /** A refund is one-shot: after a successful refund of a payment, refunding
      it again fails and changes nothing. */
  method RefundTwice(ledger: PaymentLedger, paymentId: string) returns (first: Result<RefundReceipt>, second: Result<RefundReceipt>)
    requires ledger.Valid()
    modifies ledger
    ensures first.Success? ==> second == Failure(BadRequest("Can only refund paid payments"))
    ensures first.Success? ==> paymentId in ledger.payments && ledger.payments[paymentId].status == "refunded"
  {
    first := ledger.Refund(paymentId);
    second := ledger.Refund(paymentId);
  }

  /** Paying for an order and then refunding that payment leaves the order
      cancelled and the payment refunded. */
  method PayThenRefund(ledger: PaymentLedger, user: User, req: PaymentRequest, id: string, hex: string, now: string)
    returns (paid: Result<Payment>, refunded: Result<RefundReceipt>)
    requires ledger.Valid() && id !in ledger.payments
    modifies ledger
    ensures paid.Success? ==> refunded == Success(RefundReceipt("Payment refunded successfully", Some(TransactionId(hex))))
    ensures paid.Success? ==>
              && req.orderId in ledger.orders && ledger.orders[req.orderId].status == "cancelled"
              && id in ledger.payments && ledger.payments[id].status == "refunded"
  {
    paid := ledger.CreatePayment(user, req, id, hex, now);
    refunded := ledger.Refund(id);
  }
}
