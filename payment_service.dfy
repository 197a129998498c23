/**
 * The payment service: it opens an order and a gateway payment session
 * (`createPayment`), and reconciles the order with the gateway's later
 * notifications (`handleWebhook`), collapsing the gateway's
 * `(transaction_status, fraud_status)` into the order's own
 * `(status, payment_status)`.
 */
module PaymentService {
  import opened Wrappers
  import opened Orders
  import opened Slugs

  /** The `(status, payment_status)` pair a notification is reconciled to. */
  datatype StatusPair = StatusPair(order: Status, payment: Status)

  /**
   * The status mapping of `handleWebhook`. Both statuses start out pending and
   * are overwritten only by a recognised gateway status; anything else, an
   * unknown word included, leaves them pending.
   */
  function WebhookStatus(transactionStatus: string, fraudStatus: Option<string>): (r: StatusPair)
    // paid: a settlement, or a capture the fraud screening accepted
    ensures r.order == Paid <==>
              transactionStatus == "settlement" || (transactionStatus == "capture" && fraudStatus == Some("accept"))
    // cancelled: a denied, expired or cancelled transaction
    ensures r.order == Cancelled <==> transactionStatus in {"deny", "expire", "cancel"}
    // every other status, unknown words included, stays pending
    ensures transactionStatus !in {"capture", "settlement", "deny", "expire", "cancel"} ==> r == StatusPair(Pending, Pending)
    // the two statuses move together
    ensures r.order != Failed && r.payment != Cancelled
    ensures (r.order == Paid <==> r.payment == Paid) && (r.order == Cancelled <==> r.payment == Failed)
  {
    if transactionStatus == "capture" then
      if fraudStatus == Some("accept") then StatusPair(Paid, Paid) else StatusPair(Pending, Pending)
    else if transactionStatus == "settlement" then
      StatusPair(Paid, Paid)
    else if transactionStatus == "deny" || transactionStatus == "expire" || transactionStatus == "cancel" then
      StatusPair(Cancelled, Failed)
    else
      StatusPair(Pending, Pending)
  }

  /** The update object of `handleWebhook`: the two statuses and the timestamp, nothing else. */
  function WebhookPatch(payload: Notification, now: string): (p: Patch)
    // the three columns are written, and neither the body nor the payment url
    ensures p.status.Some? && p.paymentStatus.Some? && p.updatedAt == Some(now)
    ensures p.paymentData.None? && p.paymentUrl.None?
    // the order status is never `failed` and the payment status never `cancelled`
    ensures p.status.value in {"pending", "paid", "cancelled"}
    ensures p.paymentStatus.value in {"pending", "paid", "failed"}
    ensures p.status.value == "paid" <==> p.paymentStatus.value == "paid"
  {
    var pair := WebhookStatus(payload.transactionStatus, payload.fraudStatus);
    Patch(Some(pair.order.Text()), Some(pair.payment.Text()), Some(now), None, None)
  }

  /** The table after `handleWebhook`'s update `.eq('midtrans_order_id', payload.order_id)`. */
  function ApplyWebhook(rows: map<string, Order>, payload: Notification, now: string): (r: map<string, Order>)
    ensures r.Keys == rows.Keys
    ensures forall k :: k in rows && rows[k].midtransOrderId != Some(payload.orderId) ==> r[k] == rows[k]
    ensures forall k :: k in rows && rows[k].midtransOrderId == Some(payload.orderId) ==>
              && r[k] == rows[k].(status := r[k].status, paymentStatus := r[k].paymentStatus, updatedAt := Some(now))
              && r[k].status == WebhookStatus(payload.transactionStatus, payload.fraudStatus).order.Text()
              && r[k].paymentStatus == WebhookStatus(payload.transactionStatus, payload.fraudStatus).payment.Text()
  {
    UpdateWhere(rows, MidtransOrderIdColumn, payload.orderId, WebhookPatch(payload, now))
  }

  /**
   * Two notifications for the same order: the table ends as if only the later
   * one had arrived. Nothing stops a stale `pending` from overwriting `paid`.
   */
  lemma LaterNotificationWins(rows: map<string, Order>, first: Notification, second: Notification, t1: string, t2: string)
    requires first.orderId == second.orderId
    ensures ApplyWebhook(ApplyWebhook(rows, first, t1), second, t2) == ApplyWebhook(rows, second, t2)
  {
    LastWriteWins(rows, MidtransOrderIdColumn, first.orderId, WebhookPatch(first, t1), WebhookPatch(second, t2));
  }

  /** Redelivering a notification changes nothing but the timestamp. */
  lemma RedeliveryIdempotent(rows: map<string, Order>, payload: Notification, t1: string, t2: string)
    ensures ApplyWebhook(ApplyWebhook(rows, payload, t1), payload, t2) == ApplyWebhook(rows, payload, t2)
    ensures ApplyWebhook(ApplyWebhook(rows, payload, t1), payload, t1) == ApplyWebhook(rows, payload, t1)
  {
    LaterNotificationWins(rows, payload, payload, t1, t2);
    LaterNotificationWins(rows, payload, payload, t1, t1);
  }

  /** `{ success: true, status: orderStatus }`. */
  datatype WebhookAck = WebhookAck(success: bool, status: string)

  /** What the storefront sends to open a payment. */
  datatype OrderData = OrderData(items: seq<Item>, customer: Customer, total: int)

  /** One entry of `item_details` in the gateway request. */
  datatype ItemDetail = ItemDetail(id: string, name: string, price: int, quantity: int)

  datatype Callbacks = Callbacks(finish: string, error: string, pending: string)

  /** The request sent to the gateway's `createTransaction`. */
  datatype TransactionRequest = TransactionRequest(
    orderId: string,
    grossAmount: int,
    customer: Customer,
    itemDetails: seq<ItemDetail>,
    callbacks: Callbacks)

  /** The gateway's answer: where to send the customer, and the session token. */
  datatype Transaction = Transaction(redirectUrl: string, token: string)

  /** `{ payment_url, token, order_id }`. */
  datatype PaymentSession = PaymentSession(paymentUrl: string, token: string, orderId: string)

  datatype PaymentError =
    | StoreError(message: string)    // the insert reported an error
    | DuplicateKey                   // the generated id is already a primary key
    | GatewayError(message: string)  // createTransaction threw

  /** `item_details`: each order line, identified by the slug of its name. */
  function ItemDetails(items: seq<Item>): (r: seq<ItemDetail>)
    ensures |r| == |items|
    ensures forall i :: 0 <= i < |items| ==>
              && r[i].id == Slug(items[i].name)
              && r[i].name == items[i].name && r[i].price == items[i].price && r[i].quantity == items[i].quantity
  {
    seq(|items|, i requires 0 <= i < |items| => ItemDetail(Slug(items[i].name), items[i].name, items[i].price, items[i].quantity))
  }

  /** The `parameter` object of `createPayment`; `appUrl` is `NEXTAUTH_URL`. */
  function TransactionRequestFor(orderId: string, data: OrderData, appUrl: string): (r: TransactionRequest)
    // the gateway transaction carries the order's own id and total
    ensures r.orderId == orderId && r.grossAmount == data.total && r.customer == data.customer
    ensures r.itemDetails == ItemDetails(data.items)
    // three distinct return pages, all under the application's url
    ensures |r.callbacks.finish| > |appUrl| && |r.callbacks.error| > |appUrl| && |r.callbacks.pending| > |appUrl|
    ensures r.callbacks.finish[..|appUrl|] == appUrl && r.callbacks.error[..|appUrl|] == appUrl
            && r.callbacks.pending[..|appUrl|] == appUrl
    ensures r.callbacks.finish != r.callbacks.error && r.callbacks.finish != r.callbacks.pending
            && r.callbacks.error != r.callbacks.pending
  {
    var finish, error, pending := appUrl + "/order/success", appUrl + "/order/error", appUrl + "/order/pending";
    assert finish[|appUrl| + 7] != error[|appUrl| + 7] && finish[|appUrl| + 7] != pending[|appUrl| + 7]
           && error[|appUrl| + 7] != pending[|appUrl| + 7];
    TransactionRequest(orderId, data.total, data.customer, ItemDetails(data.items),
                       Callbacks(finish, error, pending))
  }

  /** The row `createPayment` inserts. */
  function NewOrder(orderId: string, data: OrderData): (o: Order)
    // keyed by the generated id, which is also the gateway order id the webhook looks up
    ensures o.id == orderId && KeyOf(o, MidtransOrderIdColumn) == Some(orderId)
    ensures o.status == Pending.Text() && o.paymentStatus == Pending.Text()
    ensures o.customerName == data.customer.name && o.customerEmail == data.customer.email
            && o.customerPhone == data.customer.phone
    ensures o.items == data.items && o.totalAmount == data.total
    ensures o.paymentUrl.None? && o.paymentData.None? && o.updatedAt.None?
    // the insert does not set `order_id` (taken as NULL), so no `.eq('order_id', ...)` update ever selects this row
    ensures forall key :: !Matches(o, OrderIdColumn, key)
  {
    Order(orderId, data.customer.name, data.customer.email, data.customer.phone, data.items, data.total,
          "pending", "pending", Some(orderId), None, None, None, None)
  }

  class MidtransPaymentService {
    /** The database handle; the service writes through it. */
    const orders: OrderTable

    constructor (orders: OrderTable)
      ensures this.orders == orders
    {
      this.orders := orders;
    }

    /**
     * `createPayment`. The order id (built from the clock and a random
     * number), the insert's error, the gateway and the outcome of the
     * payment-url update are inputs.
     */
    method CreatePayment(data: OrderData, orderId: string, appUrl: string, insertError: Option<string>,
                         gateway: TransactionRequest -> Result<Transaction, string>, urlUpdateFails: bool)
      returns (r: Result<PaymentSession, PaymentError>)
      requires orders.Valid()
      modifies orders
      ensures orders.Valid()
      // the insert fails on a store error or a key clash, and nothing is written
      ensures insertError.Some? ==> r == Failure(StoreError(insertError.value)) && orders.rows == old(orders.rows)
      ensures insertError.None? && orderId in old(orders.rows) ==> r == Failure(DuplicateKey) && orders.rows == old(orders.rows)
      // otherwise exactly one row is added: the order, pending on both statuses, keyed to itself
      ensures insertError.None? && orderId !in old(orders.rows) ==>
                && orders.rows.Keys == old(orders.rows.Keys) + {orderId}
                && (forall k :: k in old(orders.rows) ==> orders.rows[k] == old(orders.rows[k]))
                && orders.rows[orderId].(paymentUrl := None) == NewOrder(orderId, data)
                && orders.rows[orderId].status == "pending" && orders.rows[orderId].paymentStatus == "pending"
                && orders.rows[orderId].midtransOrderId == Some(orderId)
      // a gateway failure is reported, and the pending order stays behind without a payment url
      ensures insertError.None? && orderId !in old(orders.rows) && gateway(TransactionRequestFor(orderId, data, appUrl)).Failure? ==>
                && r == Failure(GatewayError(gateway(TransactionRequestFor(orderId, data, appUrl)).error))
                && orders.rows[orderId] == NewOrder(orderId, data)
      // on success the session carries the order id; the url is stored unless that update failed, which goes unnoticed
      ensures r.Success? <==>
                insertError.None? && orderId !in old(orders.rows) && gateway(TransactionRequestFor(orderId, data, appUrl)).Success?
      ensures r.Success? ==>
                && var t := gateway(TransactionRequestFor(orderId, data, appUrl)).value;
                && r.value == PaymentSession(t.redirectUrl, t.token, orderId)
                && orders.rows[orderId].paymentUrl == (if urlUpdateFails then None else Some(t.redirectUrl))
    {
      if insertError.Some? {
        return Failure(StoreError(insertError.value));
      }
      if orderId in orders.rows {
        return Failure(DuplicateKey);
      }
      orders.rows := orders.rows[orderId := NewOrder(orderId, data)];

      var transaction := gateway(TransactionRequestFor(orderId, data, appUrl));
      if transaction.Failure? {
        return Failure(GatewayError(transaction.error));
      }
      var t := transaction.value;
      if !urlUpdateFails {
        var urlPatch := Patch(None, None, None, None, Some(t.redirectUrl));
        UpdateByIdTouchesOneRow(orders.rows, orderId, urlPatch);
        orders.rows := UpdateWhere(orders.rows, IdColumn, orderId, urlPatch);
      }
      r := Success(PaymentSession(t.redirectUrl, t.token, orderId));
    }

    /**
     * `handleWebhook`. No signature is checked. The update's error and the
     * current time are inputs; an error is rethrown.
     */
    method HandleWebhook(payload: Notification, now: string, updateError: Option<string>)
      returns (r: Result<WebhookAck, string>)
      requires orders.Valid()
      modifies orders
      ensures orders.Valid()
      ensures updateError.Some? ==> r == Failure(updateError.value) && orders.rows == old(orders.rows)
      ensures updateError.None? ==>
                && orders.rows == ApplyWebhook(old(orders.rows), payload, now)
                && r == Success(WebhookAck(true, WebhookStatus(payload.transactionStatus, payload.fraudStatus).order.Text()))
      // the status reported back is the status written on every matching row
      ensures r.Success? ==>
                forall k :: k in orders.rows && orders.rows[k].midtransOrderId == Some(payload.orderId) ==>
                  orders.rows[k].status == r.value.status
    {
      if updateError.Some? {
        return Failure(updateError.value);
      }
      var pair := WebhookStatus(payload.transactionStatus, payload.fraudStatus);
      orders.rows := ApplyWebhook(orders.rows, payload, now);
      r := Success(WebhookAck(true, pair.order.Text()));
    }
  }
}
