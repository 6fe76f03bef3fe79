/**
 * The order document schema of src/models/order.model.js: the status and payment
 * enumerations with their defaults, the item and order records, the schema's
 * validators (`required`, `min: 1`), the order-number format, and the
 * `pre('save')` hook that fills in a missing order number.
 */
module OrderModel {
  import opened Wrappers
  import opened Decimal

  // ---------------------------------------------------------------------------
  // Enumerations

  datatype Status = Pending | Processing | Shipped | Delivered | Cancelled

  datatype PaymentMethod = Cash | CreditCard | DebitCard | Paypal

  datatype PaymentStatus = PaymentPending | Paid | PaymentFailed | Refunded

  const DefaultStatus: Status := Pending
  const DefaultPaymentMethod: PaymentMethod := Cash
  const DefaultPaymentStatus: PaymentStatus := PaymentPending

  /** The strings the schema's `enum` lists for `status`. */
  function StatusName(s: Status): string
  {
    match s
    case Pending => "pending"
    case Processing => "processing"
    case Shipped => "shipped"
    case Delivered => "delivered"
    case Cancelled => "cancelled"
  }

  function PaymentMethodName(m: PaymentMethod): string
  {
    match m
    case Cash => "cash"
    case CreditCard => "credit_card"
    case DebitCard => "debit_card"
    case Paypal => "paypal"
  }

  function PaymentStatusName(p: PaymentStatus): string
  {
    match p
    case PaymentPending => "pending"
    case Paid => "paid"
    case PaymentFailed => "failed"
    case Refunded => "refunded"
  }

  /** Membership of a string in the `status` enum, and the value it names. */
  function ParseStatus(name: string): (r: Option<Status>)
    ensures r.Some? ==> StatusName(r.value) == name
    ensures r.None? <==> forall s: Status :: StatusName(s) != name
  {
    if name == "pending" then Some(Pending)
    else if name == "processing" then Some(Processing)
    else if name == "shipped" then Some(Shipped)
    else if name == "delivered" then Some(Delivered)
    else if name == "cancelled" then Some(Cancelled)
    else None
  }

  /** Membership of a string in the `paymentMethod` enum, and the value it names. */
  function ParsePaymentMethod(name: string): (r: Option<PaymentMethod>)
    ensures r.Some? ==> PaymentMethodName(r.value) == name
    ensures r.None? <==> forall m: PaymentMethod :: PaymentMethodName(m) != name
  {
    if name == "cash" then Some(Cash)
    else if name == "credit_card" then Some(CreditCard)
    else if name == "debit_card" then Some(DebitCard)
    else if name == "paypal" then Some(Paypal)
    else None
  }

  lemma StatusNamesRoundTrip(s: Status)
    ensures ParseStatus(StatusName(s)) == Some(s)
  {
  }

  lemma PaymentMethodNamesRoundTrip(m: PaymentMethod)
    ensures ParsePaymentMethod(PaymentMethodName(m)) == Some(m)
  {
  }

  // ---------------------------------------------------------------------------
  // Records

  /** Prices and amounts are integers (cents). */
  datatype OrderItem = OrderItem(
    productId: string,
    productName: string,
    quantity: int,
    price: int,
    subtotal: int)

  /** Every address field is optional; an absent field is the empty string. */
  datatype Address = Address(
    street: string,
    city: string,
    state: string,
    zipCode: string,
    country: string)

  const NoAddress: Address := Address("", "", "", "", "")

  /**
   * An order document. `id` stands for the store-assigned `_id`; an empty
   * `orderNumber` means that none is set; `createdAt` is the creation timestamp
   * that `timestamps: true` maintains.
   */
  datatype Order = Order(
    id: nat,
    orderNumber: string,
    userId: string,
    userEmail: string,
    userName: string,
    items: seq<OrderItem>,
    totalAmount: int,
    totalItems: int,
    status: Status,
    shippingAddress: Address,
    paymentMethod: PaymentMethod,
    paymentStatus: PaymentStatus,
    notes: string,
    createdAt: nat)

  /** The item schema's validators: `required` strings are non-empty, `quantity` has `min: 1`. */
  predicate ItemValid(it: OrderItem)
  {
    it.productId != "" && it.productName != "" && it.quantity >= 1
  }

  /**
   * The validators that can fail on a modelled document: the `required`
   * strings `userId`, `productId` and `productName`, and `min: 1` on each
   * quantity. The `required` numbers (price, subtotal, totalAmount,
   * totalItems) are always present in the model, so their check cannot fail.
   */
  predicate SchemaValid(o: Order)
  {
    o.userId != "" && forall i :: 0 <= i < |o.items| ==> ItemValid(o.items[i])
  }

  // ---------------------------------------------------------------------------
  // Order numbers: `ORD-${Date.now().toString().slice(-8)}-${random.toString().padStart(3, '0')}`

  function TimestampPart(now: nat): string
  {
    SliceLast(ToString(now), 8)
  }

  function RandomPart(rand: nat): string
  {
    PadZeros(ToString(rand), 3)
  }

  function OrderNumber(now: nat, rand: nat): (r: string)
    ensures |r| >= 9 && r[..4] == "ORD-"
    ensures |r| == 5 + |TimestampPart(now)| + |RandomPart(rand)|
  {
    PrefixLayout(TimestampPart(now), RandomPart(rand));
    "ORD-" + TimestampPart(now) + "-" + RandomPart(rand)
  }

  lemma PrefixLayout(t: string, r: string)
    ensures var s := "ORD-" + t + "-" + r; |s| == 5 + |t| + |r| && s[..4] == "ORD-"
  {
    var s := "ORD-" + t + "-" + r;
    assert s == "ORD-" + (t + "-" + r);
  }

  /** The pattern `ORD-\d{8}-\d{3}`. */
  predicate IsOrderNumberFormat(s: string)
  {
    |s| == 16 && s[..4] == "ORD-" && AllDigits(s[4..12]) && s[12] == '-' && AllDigits(s[13..])
  }

  /**
   * With a clock of at least eight digits (every real `Date.now()`) and a random
   * draw below 1000, the order number matches `ORD-\d{8}-\d{3}`, and its two
   * digit groups spell the clock modulo 10^8 and the draw.
   */
  lemma OrderNumberFormat(now: nat, rand: nat)
    requires now >= Pow10(7) && rand < 1000
    ensures IsOrderNumberFormat(OrderNumber(now, rand))
    ensures Value(OrderNumber(now, rand)[4..12]) == now % Pow10(8)
    ensures Value(OrderNumber(now, rand)[13..]) == rand
  {
    LastDigits(now, 8);
    PaddedDigits(rand, 3);
    OrderNumberLayout(TimestampPart(now), RandomPart(rand));
  }

  lemma OrderNumberLayout(t: string, r: string)
    requires |t| == 8 && |r| == 3 && AllDigits(t) && AllDigits(r)
    ensures var s := "ORD-" + t + "-" + r;
      IsOrderNumberFormat(s) && s[4..12] == t && s[13..] == r
  {
    var s := "ORD-" + t + "-" + r;
    assert s[..4] == "ORD-" by { assert s == "ORD-" + (t + "-" + r); }
    assert s[4..12] == t;
    assert s[12] == '-';
    assert s[13..] == r;
  }

  /**
   * Two order numbers collide exactly when the clocks agree modulo 10^8 and
   * the random draws agree: nothing else feeds the number.
   */
  lemma OrderNumberCollision(now1: nat, rand1: nat, now2: nat, rand2: nat)
    requires now1 >= Pow10(7) && rand1 < 1000
    requires now2 >= Pow10(7) && rand2 < 1000
    ensures OrderNumber(now1, rand1) == OrderNumber(now2, rand2)
        <==> now1 % Pow10(8) == now2 % Pow10(8) && rand1 == rand2
  {
    OrderNumberFormat(now1, rand1);
    OrderNumberFormat(now2, rand2);
    var s1, s2 := OrderNumber(now1, rand1), OrderNumber(now2, rand2);
    if s1 == s2 {
      assert s1[4..12] == s2[4..12] && s1[13..] == s2[13..];
    }
    if now1 % Pow10(8) == now2 % Pow10(8) && rand1 == rand2 {
      LastDigits(now1, 8);
      LastDigits(now2, 8);
      ValueInjective(TimestampPart(now1), TimestampPart(now2));
    }
  }

  /** `slice(-8)` does not pad: a clock below 10^7 gives a shorter number. */
  lemma ShortClockOrderNumber(now: nat, rand: nat)
    requires now < Pow10(7) && rand < 1000
    ensures |OrderNumber(now, rand)| < 16
  {
    ShortToString(now, 7);
    PaddedDigits(rand, 3);
  }

  // ---------------------------------------------------------------------------
  // The pre('save') hook

  /** An order number is generated only when none is set; nothing else is touched. */
  function WithOrderNumber(o: Order, now: nat, rand: nat): (r: Order)
    ensures r.orderNumber != ""
    ensures r == o.(orderNumber := r.orderNumber)
    ensures o.orderNumber != "" ==> r == o
    ensures o.orderNumber == "" ==> r.orderNumber == OrderNumber(now, rand)
  {
    if o.orderNumber == "" then o.(orderNumber := OrderNumber(now, rand)) else o
  }

  /** Saving twice never renumbers: the hook is idempotent whatever clock and draw it sees. */
  lemma PreSaveIdempotent(o: Order, now1: nat, rand1: nat, now2: nat, rand2: nat)
    ensures WithOrderNumber(WithOrderNumber(o, now1, rand1), now2, rand2)
         == WithOrderNumber(o, now1, rand1)
  {
  }

  /** A document about to be saved; the hook assigns its order number in place. */
  class OrderDocument {
    var data: Order

    constructor (o: Order)
      ensures data == o
    {
      data := o;
    }

    method PreSave(now: nat, rand: nat)
      modifies this
      ensures data == WithOrderNumber(old(data), now, rand)
    {
      if data.orderNumber == "" {
        data := data.(orderNumber := OrderNumber(now, rand));
      }
    }
  }
}
