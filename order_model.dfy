/** The Order document: line items, enums, defaults and the customer
    feedback rating range. Amounts are integers (minor currency units). */
module OrderModel {
  import opened Common

  datatype OrderStatus = Pending | Confirmed | Preparing | Ready | Delivered | Cancelled

  datatype OrderType = OrderForMe | DonateAMeal

  datatype PaymentStatus = AwaitingPayment | Paid | Refunded

  datatype PaymentMethod = Card | Stripe | Sslcommerz | Cash

  function OrderStatusName(s: OrderStatus): string {
    match s
    case Pending => "pending"
    case Confirmed => "confirmed"
    case Preparing => "preparing"
    case Ready => "ready"
    case Delivered => "delivered"
    case Cancelled => "cancelled"
  }

  function ParseOrderStatus(s: string): (r: Option<OrderStatus>)
    ensures r.Some? ==> OrderStatusName(r.value) == s
    ensures r.None? ==> forall st :: OrderStatusName(st) != s
  {
    if s == "pending" then Some(Pending)
    else if s == "confirmed" then Some(Confirmed)
    else if s == "preparing" then Some(Preparing)
    else if s == "ready" then Some(Ready)
    else if s == "delivered" then Some(Delivered)
    else if s == "cancelled" then Some(Cancelled)
    else None
  }

  function OrderTypeName(t: OrderType): string {
    match t
    case OrderForMe => "Order for Me"
    case DonateAMeal => "Donate a Meal"
  }

  function ParseOrderType(s: string): (r: Option<OrderType>)
    ensures r.Some? ==> OrderTypeName(r.value) == s
    ensures r.None? ==> forall t :: OrderTypeName(t) != s
  {
    if s == "Order for Me" then Some(OrderForMe)
    else if s == "Donate a Meal" then Some(DonateAMeal)
    else None
  }

  /** `orderType || 'Order for Me'`, then the enum check. */
  function RequestedOrderType(s: string): (r: Option<OrderType>)
    ensures s == "" ==> r == Some(OrderForMe)
    ensures s != "" ==> (r.Some? <==> exists t :: OrderTypeName(t) == s)
    ensures s != "" && r.Some? ==> OrderTypeName(r.value) == s
  {
    if s == "" then Some(OrderForMe) else ParseOrderType(s)
  }

  function PaymentStatusName(p: PaymentStatus): string {
    match p
    case AwaitingPayment => "pending"
    case Paid => "paid"
    case Refunded => "refunded"
  }

  datatype OrderItem = OrderItem(name: string, quantity: int, price: int, subtotal: int)

  datatype CustomerFeedback = CustomerFeedback(rating: Option<int>, comment: string, addedAt: Time)

  datatype Order = Order(
    restaurant: Id,
    restaurantName: string,
    customer: Id,
    customerName: string,
    items: seq<OrderItem>,
    totalAmount: int,
    orderType: OrderType,
    status: OrderStatus,
    paymentStatus: PaymentStatus,
    paymentMethod: PaymentMethod,
    deliveryAddress: string,
    customerFeedback: Option<CustomerFeedback>,
    createdAt: Time,
    completedAt: Option<Time>)

  /** The customer's rating, when present, lies in [1, 5]. */
  predicate CustomerFeedbackValid(f: Option<CustomerFeedback>) {
    f.Some? && f.value.rating.Some? ==> 1 <= f.value.rating.value <= 5
  }

  /** Required strings non-empty and the feedback rating in range. */
  predicate OrderValid(o: Order) {
    o.restaurantName != "" && o.customerName != "" && CustomerFeedbackValid(o.customerFeedback)
  }

  /** A new order with the schema's defaults: status pending, payment method
      card, no feedback, not completed. The payment status is the caller's. */
  function NewOrder(restaurant: Id, restaurantName: string, customer: Id, customerName: string,
                    items: seq<OrderItem>, totalAmount: int, orderType: OrderType,
                    paymentStatus: PaymentStatus, deliveryAddress: string,
                    createdAt: Time): (o: Order)
    ensures o.status == Pending && o.paymentMethod == Card
    ensures o.customerFeedback.None? && o.completedAt.None?
    ensures o.orderType == orderType && o.paymentStatus == paymentStatus
    ensures o.restaurant == restaurant && o.customer == customer && o.totalAmount == totalAmount
    ensures o.restaurantName == restaurantName && o.customerName == customerName
    ensures o.items == items && o.deliveryAddress == deliveryAddress && o.createdAt == createdAt
    ensures OrderValid(o) <==> restaurantName != "" && customerName != ""
  {
    Order(restaurant, restaurantName, customer, customerName, items, totalAmount, orderType,
          Pending, paymentStatus, Card, deliveryAddress, None, createdAt, None)
  }

  /** The customer's feedback: the whole feedback is replaced, stamped now;
      nothing else about the order changes. */
  function WithFeedback(o: Order, rating: Option<int>, comment: string, now: Time): (r: Order)
    ensures r.customerFeedback == Some(CustomerFeedback(rating, comment, now))
    ensures r.(customerFeedback := o.customerFeedback) == o
    ensures OrderValid(o) ==> (OrderValid(r) <==> rating.Some? ==> 1 <= rating.value <= 5)
  {
    o.(customerFeedback := Some(CustomerFeedback(rating, comment, now)))
  }
}
