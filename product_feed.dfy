/**
 * The storefront's product list: loaded once from the database, then kept
 * current by the realtime INSERT and UPDATE events. Each event replaces the
 * list with a function of the previous one.
 */
module ProductFeed {
  import opened Wrappers

  /** A row of the `products` table. */
  datatype Product = Product(
    id: string,
    name: string,
    description: string,
    price: int,
    category: string,
    imageUrl: string,
    isAvailable: bool)

  /** INSERT: `[payload.new, ...prev]`. */
  function Prepend(prev: seq<Product>, row: Product): (r: seq<Product>)
    ensures |r| == |prev| + 1
    ensures r[0] == row && r[1..] == prev
  {
    [row] + prev
  }

  /** UPDATE: `prev.map(p => p.id === payload.new.id ? payload.new : p)`. */
  function ReplaceById(prev: seq<Product>, row: Product): (r: seq<Product>)
    ensures |r| == |prev|
    ensures forall i :: 0 <= i < |prev| && prev[i].id == row.id ==> r[i] == row
    ensures forall i :: 0 <= i < |prev| && prev[i].id != row.id ==> r[i] == prev[i]
  {
    if prev == [] then []
    else
      var rest := ReplaceById(prev[1..], row);
      var r := [if prev[0].id == row.id then row else prev[0]] + rest;
      assert forall i :: 0 < i < |r| ==> r[i] == rest[i - 1] && prev[i] == prev[1..][i - 1];
      r
  }

  /** How many entries carry `id`. */
  function CountId(s: seq<Product>, id: string): nat {
    if s == [] then 0 else (if s[0].id == id then 1 else 0) + CountId(s[1..], id)
  }

  /** The ids of the list, in order. */
  function Ids(s: seq<Product>): seq<string> {
    seq(|s|, i requires 0 <= i < |s| => s[i].id)
  }

  /** INSERT does not deduplicate: a row whose id is already listed appears once more. */
  lemma PrependAddsOneWithItsId(prev: seq<Product>, row: Product)
    ensures CountId(Prepend(prev, row), row.id) == CountId(prev, row.id) + 1
  {
  }

  /** UPDATE keeps every position's id, so the order of the list is unchanged. */
  lemma ReplaceKeepsIds(prev: seq<Product>, row: Product)
    ensures Ids(ReplaceById(prev, row)) == Ids(prev)
  {
  }

  /** UPDATE for an id that is not listed leaves the list as it was. */
  lemma {:induction false} ReplaceAbsentIsIdentity(prev: seq<Product>, row: Product)
    requires CountId(prev, row.id) == 0
    ensures ReplaceById(prev, row) == prev
  {
    if prev != [] {
      ReplaceAbsentIsIdentity(prev[1..], row);
    }
  }

  /** Delivering the same UPDATE twice has the effect of delivering it once. */
  lemma ReplaceIdempotent(prev: seq<Product>, row: Product)
    ensures ReplaceById(ReplaceById(prev, row), row) == ReplaceById(prev, row)
  {
  }

  /** What the initial query returns: rows, an error, or both absent. */
  datatype QueryResult = QueryResult(data: Option<seq<Product>>, error: Option<string>)

  /** The home page's `products` and `isLoading` state. */
  class HomePage {
    var products: seq<Product>
    var isLoading: bool

    constructor ()
      ensures products == [] && isLoading
    {
      products := [];
      isLoading := true;
    }

    /**
     * `loadProducts`: the list is replaced only when the query reports no
     * error and returns data (an empty array counts as data); loading ends
     * either way. A thrown query is a result with an error.
     */
    method LoadProducts(result: QueryResult)
      modifies this
      ensures !isLoading
      ensures result.error.None? && result.data.Some? ==> products == result.data.value
      ensures result.error.Some? || result.data.None? ==> products == old(products)
    {
      if result.error.None? && result.data.Some? {
        products := result.data.value;
      }
      isLoading := false;
    }

    /** The realtime INSERT handler. */
    method OnInsert(row: Product)
      modifies this
      ensures products == Prepend(old(products), row) && isLoading == old(isLoading)
    {
      products := Prepend(products, row);
    }

    /** The realtime UPDATE handler. */
    method OnUpdate(row: Product)
      modifies this
      ensures products == ReplaceById(old(products), row) && isLoading == old(isLoading)
    {
      products := ReplaceById(products, row);
    }
  }
}
