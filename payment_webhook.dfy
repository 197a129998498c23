/**
 * The payment-notification API route: a second, older reconciler. It maps
 * the gateway status without looking at the fraud screening, stores the raw
 * gateway word as `payment_status` and the whole body as `payment_data`, and
 * selects rows by the `order_id` column.
 */
module PaymentWebhook {
  import opened Wrappers
  import opened Orders
  import PaymentService

  datatype Request = Request(httpMethod: string, body: Notification)

  datatype ResponseBody =
    | MethodNotAllowed                                 // { error: 'Method not allowed' }
    | Processed(orderId: string, updatedStatus: string) // { status: 'ok', ..., order_id, updated_status }
    | ProcessingFailed(details: string)                 // { error: 'Webhook processing failed', details }

  datatype Response = Response(code: int, body: ResponseBody)

  /** The route's status mapping: `capture` counts as paid whatever the fraud screening said. */
  function NotificationStatus(transactionStatus: string): (s: Status)
    ensures s == Paid <==> transactionStatus in {"capture", "settlement"}
    ensures s == Failed <==> transactionStatus in {"deny", "cancel", "expire"}
    ensures s != Cancelled
    // `pending` and every unrecognised word stay pending
    ensures transactionStatus !in {"capture", "settlement", "deny", "cancel", "expire"} ==> s == Pending
  {
    if transactionStatus == "capture" || transactionStatus == "settlement" then Paid
    else if transactionStatus == "deny" || transactionStatus == "cancel" || transactionStatus == "expire" then Failed
    else if transactionStatus == "pending" then Pending
    else Pending
  }

  /** The update object: mapped status, raw gateway status, timestamp and the whole body. */
  function NotificationPatch(body: Notification, now: string): (p: Patch)
    // four columns are written: the payment url is not
    ensures p.status.Some? && p.updatedAt == Some(now) && p.paymentUrl.None?
    // the raw gateway word and the whole body are stored as they came
    ensures p.paymentStatus == Some(body.transactionStatus) && p.paymentData == Some(body)
    // the order status is never `cancelled`, the word the service uses
    ensures p.status.value in {"pending", "paid", "failed"}
  {
    Patch(Some(NotificationStatus(body.transactionStatus).Text()), Some(body.transactionStatus), Some(now), Some(body), None)
  }

  /** The table after the route's update `.eq('order_id', order_id)`. */
  function ApplyNotification(rows: map<string, Order>, body: Notification, now: string): (r: map<string, Order>)
    ensures r.Keys == rows.Keys
    ensures forall k :: k in rows && rows[k].orderId != Some(body.orderId) ==> r[k] == rows[k]
    ensures forall k :: k in rows && rows[k].orderId == Some(body.orderId) ==>
              && r[k] == rows[k].(status := r[k].status, paymentStatus := r[k].paymentStatus,
                                  updatedAt := Some(now), paymentData := Some(body))
              && r[k].status == NotificationStatus(body.transactionStatus).Text()
              && r[k].paymentStatus == body.transactionStatus
  {
    UpdateWhere(rows, OrderIdColumn, body.orderId, NotificationPatch(body, now))
  }

  /** Two notifications for the same order: only the later one shows. Redelivery is idempotent. */
  lemma LaterNotificationWins(rows: map<string, Order>, first: Notification, second: Notification, t1: string, t2: string)
    requires first.orderId == second.orderId
    ensures ApplyNotification(ApplyNotification(rows, first, t1), second, t2) == ApplyNotification(rows, second, t2)
  {
    LastWriteWins(rows, OrderIdColumn, first.orderId, NotificationPatch(first, t1), NotificationPatch(second, t2));
  }

  /** A notification for an order no row carries writes nothing. */
  lemma UnknownOrderWritesNothing(rows: map<string, Order>, body: Notification, now: string)
    requires forall k :: k in rows ==> rows[k].orderId != Some(body.orderId)
    ensures ApplyNotification(rows, body, now) == rows
  {
    NoMatchNoChange(rows, OrderIdColumn, body.orderId, NotificationPatch(body, now));
  }

  /**
   * The route's status is the service's PAYMENT status, except for a capture
   * the fraud screening did not accept: the route calls it paid, the service
   * leaves both statuses pending.
   */
  lemma AgreesWithServiceExceptUnscreenedCapture(transactionStatus: string, fraudStatus: Option<string>)
    ensures var service := PaymentService.WebhookStatus(transactionStatus, fraudStatus);
            NotificationStatus(transactionStatus) == service.payment
            <==> !(transactionStatus == "capture" && fraudStatus != Some("accept"))
    ensures transactionStatus == "capture" && fraudStatus != Some("accept") ==>
              && NotificationStatus(transactionStatus) == Paid
              && PaymentService.WebhookStatus(transactionStatus, fraudStatus) == PaymentService.StatusPair(Pending, Pending)
  {
  }

  /**
   * The route's status and the service's ORDER status also part on a failed
   * transaction: the route writes `failed`, the service `cancelled`.
   */
  lemma OrderStatusDiffersOnFailure(transactionStatus: string, fraudStatus: Option<string>)
    ensures var service := PaymentService.WebhookStatus(transactionStatus, fraudStatus);
            NotificationStatus(transactionStatus) == service.order
            <==> !(transactionStatus == "capture" && fraudStatus != Some("accept"))
                 && transactionStatus !in {"deny", "cancel", "expire"}
    ensures transactionStatus in {"deny", "cancel", "expire"} ==>
              NotificationStatus(transactionStatus) == Failed
              && PaymentService.WebhookStatus(transactionStatus, fraudStatus).order == Cancelled
  {
  }

  /** `handler(req, res)`. The update's error and the current time are inputs. */
  method Handler(req: Request, orders: OrderTable, now: string, updateError: Option<string>) returns (res: Response)
    requires orders.Valid()
    modifies orders
    ensures orders.Valid()
    ensures req.httpMethod != "POST" ==> res == Response(405, MethodNotAllowed) && orders.rows == old(orders.rows)
    ensures req.httpMethod == "POST" && updateError.Some? ==>
              res == Response(500, ProcessingFailed(updateError.value)) && orders.rows == old(orders.rows)
    // a 200 acknowledges the mapped status, whether or not any row matched
    ensures req.httpMethod == "POST" && updateError.None? ==>
              && res == Response(200, Processed(req.body.orderId, NotificationStatus(req.body.transactionStatus).Text()))
              && orders.rows == ApplyNotification(old(orders.rows), req.body, now)
  {
    if req.httpMethod != "POST" {
      return Response(405, MethodNotAllowed);
    }
    var status := NotificationStatus(req.body.transactionStatus);
    if updateError.Some? {
      return Response(500, ProcessingFailed(updateError.value));
    }
    orders.rows := ApplyNotification(orders.rows, req.body, now);
    res := Response(200, Processed(req.body.orderId, status.Text()));
  }
}
