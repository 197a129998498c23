/**
 * The `orders` table of the hosted database, as the payment code sees it:
 * rows keyed by their primary key `id`, and the one kind of write the
 * payment code performs on existing rows, `update(columns).eq(column, key)`,
 * which overwrites the named columns of every row whose key column equals
 * the key and touches nothing else.
 */
module Orders {
  import opened Wrappers

  /** One line of an order, as the storefront sends it. */
  datatype Item = Item(name: string, price: int, quantity: int)

  datatype Customer = Customer(name: string, email: string, phone: string)

  /** The internal status words the payment code writes. */
  datatype Status = Pending | Paid | Cancelled | Failed {

    /** The text stored in the database column. */
    function Text(): (t: string)
      ensures t in {"pending", "paid", "cancelled", "failed"}
      ensures t == "paid" <==> this == Paid
      ensures t == "pending" <==> this == Pending
      ensures t == "cancelled" <==> this == Cancelled
      ensures t == "failed" <==> this == Failed
    {
      match this
      case Pending => "pending"
      case Paid => "paid"
      case Cancelled => "cancelled"
      case Failed => "failed"
    }
  }

  /**
   * The body of a payment-gateway notification. `order_id` and
   * `transaction_status` are taken to be present; the rest may be absent.
   */
  datatype Notification = Notification(
    orderId: string,
    transactionStatus: string,
    fraudStatus: Option<string>,
    grossAmount: Option<string>,
    paymentType: Option<string>,
    transactionTime: Option<string>)

  /**
   * A row of `orders`. Nullable columns are `Option`s; `status` and
   * `paymentStatus` are free text because one writer stores the gateway's
   * raw status word there.
   */
  datatype Order = Order(
    id: string,
    customerName: string,
    customerEmail: string,
    customerPhone: string,
    items: seq<Item>,
    totalAmount: int,
    status: string,
    paymentStatus: string,
    midtransOrderId: Option<string>,
    orderId: Option<string>,
    paymentUrl: Option<string>,
    paymentData: Option<Notification>,
    updatedAt: Option<string>)

  /** The column an update filters on with `.eq(column, key)`. */
  datatype KeyColumn = IdColumn | MidtransOrderIdColumn | OrderIdColumn

  function KeyOf(o: Order, column: KeyColumn): Option<string> {
    match column
    case IdColumn => Some(o.id)
    case MidtransOrderIdColumn => o.midtransOrderId
    case OrderIdColumn => o.orderId
  }

  /** `.eq(column, key)`: a NULL column never equals the key. */
  predicate Matches(o: Order, column: KeyColumn, key: string) {
    KeyOf(o, column) == Some(key)
  }

  /**
   * The object passed to `update(...)`: a `Some` column is written, a
   * `None` column is not part of the update.
   */
  datatype Patch = Patch(
    status: Option<string>,
    paymentStatus: Option<string>,
    updatedAt: Option<string>,
    paymentData: Option<Notification>,
    paymentUrl: Option<string>)

  function Patched(o: Order, p: Patch): (r: Order)
    // only the five patchable columns can differ
    ensures r == o.(status := r.status, paymentStatus := r.paymentStatus, updatedAt := r.updatedAt,
                    paymentData := r.paymentData, paymentUrl := r.paymentUrl)
    // each of them takes the patch's value when the patch names it, and keeps its own otherwise
    ensures r.status == (if p.status.Some? then p.status.value else o.status)
    ensures r.paymentStatus == (if p.paymentStatus.Some? then p.paymentStatus.value else o.paymentStatus)
    ensures r.updatedAt == (if p.updatedAt.Some? then p.updatedAt else o.updatedAt)
    ensures r.paymentData == (if p.paymentData.Some? then p.paymentData else o.paymentData)
    ensures r.paymentUrl == (if p.paymentUrl.Some? then p.paymentUrl else o.paymentUrl)
    // so no key column moves
    ensures forall c: KeyColumn :: KeyOf(r, c) == KeyOf(o, c)
  {
    o.(status := p.status.GetOr(o.status),
       paymentStatus := p.paymentStatus.GetOr(o.paymentStatus),
       updatedAt := if p.updatedAt.Some? then p.updatedAt else o.updatedAt,
       paymentData := if p.paymentData.Some? then p.paymentData else o.paymentData,
       paymentUrl := if p.paymentUrl.Some? then p.paymentUrl else o.paymentUrl)
  }

  /** Every row is stored under its own primary key. */
  predicate KeyedById(rows: map<string, Order>) {
    forall k :: k in rows ==> rows[k].id == k
  }

  /** `update(p).eq(column, key)` over the whole table. */
  function UpdateWhere(rows: map<string, Order>, column: KeyColumn, key: string, p: Patch): (r: map<string, Order>)
    ensures r.Keys == rows.Keys
    ensures forall k :: k in rows && Matches(rows[k], column, key) ==> r[k] == Patched(rows[k], p)
    ensures forall k :: k in rows && !Matches(rows[k], column, key) ==> r[k] == rows[k]
    ensures KeyedById(rows) ==> KeyedById(r)
  {
    map k | k in rows :: if Matches(rows[k], column, key) then Patched(rows[k], p) else rows[k]
  }

  /** Every column `p` writes, `q` writes too. */
  predicate Covers(q: Patch, p: Patch) {
    && (p.status.Some? ==> q.status.Some?)
    && (p.paymentStatus.Some? ==> q.paymentStatus.Some?)
    && (p.updatedAt.Some? ==> q.updatedAt.Some?)
    && (p.paymentData.Some? ==> q.paymentData.Some?)
    && (p.paymentUrl.Some? ==> q.paymentUrl.Some?)
  }

  /**
   * A second update on the same key that writes at least the columns of the
   * first leaves the table exactly as if only the second had run: the update
   * is an overwrite, not an append, and the later write wins.
   */
  lemma LastWriteWins(rows: map<string, Order>, column: KeyColumn, key: string, p: Patch, q: Patch)
    requires Covers(q, p)
    ensures UpdateWhere(UpdateWhere(rows, column, key, p), column, key, q) == UpdateWhere(rows, column, key, q)
  {
  }

  /** An update whose key matches no row leaves the table as it was. */
  lemma NoMatchNoChange(rows: map<string, Order>, column: KeyColumn, key: string, p: Patch)
    requires forall k :: k in rows ==> !Matches(rows[k], column, key)
    ensures UpdateWhere(rows, column, key, p) == rows
  {
  }

  /** On a table keyed by id, an update by `id` rewrites at most the one row stored under that key. */
  lemma UpdateByIdTouchesOneRow(rows: map<string, Order>, key: string, p: Patch)
    requires KeyedById(rows)
    ensures UpdateWhere(rows, IdColumn, key, p)
            == if key in rows then rows[key := Patched(rows[key], p)] else rows
  {
  }

  /**
   * The `orders` table: the rows the hosted database holds, each stored
   * under its own primary key. Both reconcilers write through it.
   */
  class OrderTable {
    var rows: map<string, Order>

    ghost predicate Valid()
      reads this
    {
      KeyedById(rows)
    }

    constructor (initial: map<string, Order>)
      requires KeyedById(initial)
      ensures Valid() && rows == initial
      ensures forall k :: k in rows ==> rows[k].id == k
    {
      rows := initial;
    }
  }
}
