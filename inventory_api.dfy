/** The stock ledger (`inventory.py`): one record per product with its
    current stock and a log of movements, updated in place by sales and
    restocks; each update is copied into the shared product catalogue. */
module InventoryApi {
  import opened Common
  import ProductsApi

  /** One logged movement; `quantity` is signed, `date` a timestamp. */
  datatype Movement = Movement(
    date: int, kind: string, quantity: int, newStock: int,
    reason: string, userId: Option<int>)

  datatype Record = Record(
    id: int, productId: int, currentStock: int,
    minimumStock: int, maximumStock: int,
    lastRestock: Option<int>, movements: seq<Movement>)

  datatype Error = MissingField | InsufficientStock

  function StatusCode(e: Error): int { 400 }

  /** `update_stock` treats `'sale'` as a sale and every other type string as
      a restock for the arithmetic; only the literal `'restock'` seeds a new
      record, stamps `last_restock` and logs a positive quantity. */
  const SaleKind: string := "sale"
  const RestockKind: string := "restock"

  /** The record `update_stock` creates for a product with none yet. */
  function Seed(id: int, productId: int, kind: string, q: int,
                minimumStock: Option<int>, maximumStock: Option<int>, now: int): (r: Record)
    ensures r.movements == [] && r.id == id && r.productId == productId
    ensures r.currentStock == (if kind == RestockKind then q else 0)
    ensures r.minimumStock == (if minimumStock.Some? then minimumStock.value else 5)
    ensures r.maximumStock == (if maximumStock.Some? then maximumStock.value else 100)
  {
    Record(id, productId, if kind == RestockKind then q else 0,
           if minimumStock.Some? then minimumStock.value else 5,
           if maximumStock.Some? then maximumStock.value else 100,
           if kind == RestockKind then Some(now) else None, [])
  }

  /** One movement applied to a record: `None` when a sale exceeds the stock. */
  function Apply(rec: Record, kind: string, q: int, reason: string, userId: Option<int>, now: int): (r: Option<Record>)
    ensures r.None? <==> kind == SaleKind && rec.currentStock < q
    ensures r.Some? ==> |r.value.movements| == |rec.movements| + 1
    ensures r.Some? ==> r.value.movements[..|rec.movements|] == rec.movements
    ensures r.Some? ==> r.value.movements[|rec.movements|].newStock == r.value.currentStock
    ensures r.Some? && kind == SaleKind ==> r.value.currentStock == rec.currentStock - q >= 0
    ensures r.Some? && kind != SaleKind ==> r.value.currentStock == rec.currentStock + q
    ensures r.Some? ==>
      r.value.movements[|rec.movements|]
      == Movement(now, kind, if kind == RestockKind then q else -q, r.value.currentStock, reason, userId)
    ensures r.Some? ==> r.value.lastRestock == if kind == RestockKind then Some(now) else rec.lastRestock
    ensures r.Some? ==>
      r.value.id == rec.id && r.value.productId == rec.productId
      && r.value.minimumStock == rec.minimumStock && r.value.maximumStock == rec.maximumStock
  {
    if kind == SaleKind && rec.currentStock < q then None
    else
      var newStock := if kind == SaleKind then rec.currentStock - q else rec.currentStock + q;
      var logged := if kind == RestockKind then q else -q;
      Some(rec.(currentStock := newStock,
                lastRestock := if kind == RestockKind then Some(now) else rec.lastRestock,
                movements := rec.movements + [Movement(now, kind, logged, newStock, reason, userId)]))
  }

  /** A type that is neither `'sale'` nor `'restock'` raises the stock like a
      restock, yet its logged quantity is negative and `last_restock` stays. */
  lemma OtherKindLogsNegative(rec: Record, kind: string, q: int, reason: string, userId: Option<int>, now: int)
    requires kind != SaleKind && kind != RestockKind && q > 0
    ensures var r := Apply(rec, kind, q, reason, userId, now);
      r.Some? && r.value.currentStock == rec.currentStock + q
      && r.value.movements[|rec.movements|].quantity == -q < 0
      && r.value.lastRestock == rec.lastRestock
  {
  }

  /** Index of the first record of a product, as `next(...)` finds it. */
  function FindRecord(records: seq<Record>, productId: int): (k: Option<nat>)
    ensures k.Some? ==> k.value < |records| && records[k.value].productId == productId
    ensures k.Some? ==> forall j :: 0 <= j < k.value ==> records[j].productId != productId
    ensures k.None? ==> forall j :: 0 <= j < |records| ==> records[j].productId != productId
  {
    if records == [] then None
    else if records[0].productId == productId then Some(0)
    else match FindRecord(records[1..], productId)
      case None => None
      case Some(k) => Some(k + 1)
  }

  function FindProductIndex(products: seq<ProductsApi.Product>, id: int): (k: Option<nat>)
    ensures k.Some? ==> k.value < |products| && products[k.value].id == id
    ensures k.Some? ==> forall j :: 0 <= j < k.value ==> products[j].id != id
    ensures k.None? ==> forall j :: 0 <= j < |products| ==> products[j].id != id
  {
    if products == [] then None
    else if products[0].id == id then Some(0)
    else match FindProductIndex(products[1..], id)
      case None => None
      case Some(k) => Some(k + 1)
  }

  /** The catalogue after the stock of the first product with the id is
      overwritten; no other product and no other field changes. */
  function CopyStock(products: seq<ProductsApi.Product>, id: int, stock: int): (r: seq<ProductsApi.Product>)
    ensures |r| == |products|
    ensures forall j :: 0 <= j < |r| ==> r[j].(stock := products[j].stock) == products[j]
    ensures forall j :: 0 <= j < |r| && r[j] != products[j] ==>
      FindProductIndex(products, id) == Some(j) && r[j].stock == stock
    ensures FindProductIndex(products, id).Some? ==> r[FindProductIndex(products, id).value].stock == stock
  {
    match FindProductIndex(products, id)
    case None => products
    case Some(k) => products[k := products[k].(stock := stock)]
  }

  /** The records after the lookup: the table itself, or the table with a
      freshly seeded record for an unknown product appended last. */
  function WithRecord(records: seq<Record>, productId: int, kind: string, q: int,
                      minimumStock: Option<int>, maximumStock: Option<int>, now: int): (r: seq<Record>)
    ensures FindRecord(records, productId).Some? ==> r == records
    ensures FindRecord(records, productId).None? ==>
      r == records + [Seed(|records| + 1, productId, kind, q, minimumStock, maximumStock, now)]
    ensures FindRecord(r, productId).Some?
  {
    if FindRecord(records, productId).Some? then records
    else
      var r := records + [Seed(|records| + 1, productId, kind, q, minimumStock, maximumStock, now)];
      assert r[|records|].productId == productId;
      r
  }

  datatype LowStockItem = LowStockItem(
    productId: int, productName: string, currentStock: int,
    minimumStock: int, reorderQuantity: int)

  predicate Listed(rec: Record, products: seq<ProductsApi.Product>, threshold: int)
  {
    rec.currentStock <= threshold && ProductsApi.FindProduct(products, rec.productId).Some?
  }

  function ItemFor(rec: Record, products: seq<ProductsApi.Product>): LowStockItem
    requires ProductsApi.FindProduct(products, rec.productId).Some?
  {
    var p := ProductsApi.FindProduct(products, rec.productId).value;
    LowStockItem(rec.productId, p.name, rec.currentStock, rec.minimumStock,
                 rec.maximumStock - rec.currentStock)
  }

  /** The `low_stock_items` list, record by record. */
  function LowStock(records: seq<Record>, products: seq<ProductsApi.Product>, threshold: int): (r: seq<LowStockItem>)
    ensures |r| <= |records|
    ensures forall x :: x in r ==> x.currentStock <= threshold
  {
    if records == [] then []
    else
      var rec := records[|records| - 1];
      LowStock(records[..|records| - 1], products, threshold)
      + (if Listed(rec, products, threshold) then [ItemFor(rec, products)] else [])
  }

  /** The listing holds exactly one item per record at or under the threshold
      whose product exists, and each asks to refill up to the maximum. */
  lemma {:induction false} LowStockExact(records: seq<Record>, products: seq<ProductsApi.Product>, threshold: int)
    ensures |LowStock(records, products, threshold)| <= |records|
    ensures forall x :: x in LowStock(records, products, threshold) <==>
      exists i :: 0 <= i < |records| && Listed(records[i], products, threshold) && x == ItemFor(records[i], products)
    ensures forall x :: x in LowStock(records, products, threshold) ==>
      x.currentStock <= threshold
  {
    if records != [] {
      var init := records[..|records| - 1];
      LowStockExact(init, products, threshold);
      forall x | x in LowStock(records, products, threshold)
        ensures exists i :: 0 <= i < |records| && Listed(records[i], products, threshold) && x == ItemFor(records[i], products)
      {
        if x in LowStock(init, products, threshold) {
          var i :| 0 <= i < |init| && Listed(init[i], products, threshold) && x == ItemFor(init[i], products);
          assert records[i] == init[i];
        }
      }
      forall i | 0 <= i < |records| && Listed(records[i], products, threshold)
        ensures ItemFor(records[i], products) in LowStock(records, products, threshold)
      {
        if i < |init| {
          assert init[i] == records[i];
        }
      }
    }
  }

  /** The module-level `inventory_db` together with the catalogue it writes. */
  class Ledger {
    var records: seq<Record>
    const catalog: ProductsApi.Catalog

    constructor (initial: seq<Record>, products: ProductsApi.Catalog)
      ensures records == initial && catalog == products
    {
      records := initial;
      catalog := products;
    }

    /** `update_stock`: the three fields are required; an unknown product
        first gets a record (kept even when the sale then fails); a sale
        above the stock is refused with the stock untouched; otherwise the
        movement is applied, logged once and copied into the catalogue. */
    method UpdateStock(productId: Option<int>, quantity: Option<int>, kind: Option<string>,
                       minimumStock: Option<int>, maximumStock: Option<int>,
                       reason: Option<string>, userId: Option<int>, now: int)
      returns (r: Result<Record, Error>)
      modifies this`records, catalog`products
      ensures productId.None? || quantity.None? || kind.None? ==>
        r == Err(MissingField) && records == old(records) && catalog.products == old(catalog.products)
      ensures productId.Some? && quantity.Some? && kind.Some? ==>
        var table := WithRecord(old(records), productId.value, kind.value, quantity.value, minimumStock, maximumStock, now);
        var k := FindRecord(table, productId.value).value;
        var why := if reason.Some? then reason.value else "";
        match Apply(table[k], kind.value, quantity.value, why, userId, now)
        case None =>
          r == Err(InsufficientStock) && records == table && catalog.products == old(catalog.products)
        case Some(u) =>
          r == Ok(u) && records == table[k := u]
          && catalog.products == CopyStock(old(catalog.products), productId.value, u.currentStock)
    {
      if productId.None? || quantity.None? || kind.None? {
        return Err(MissingField);
      }
      var pid, q, t := productId.value, quantity.value, kind.value;
      records := WithRecord(records, pid, t, q, minimumStock, maximumStock, now);
      var k := FindRecord(records, pid).value;
      var why := if reason.Some? then reason.value else "";
      match Apply(records[k], t, q, why, userId, now) {
        case None =>
          r := Err(InsufficientStock);
        case Some(u) =>
          records := records[k := u];
          catalog.products := CopyStock(catalog.products, pid, u.currentStock);
          r := Ok(u);
      }
    }

    /** `get_low_stock`: threshold 10 unless given; nothing changes. */
    method GetLowStock(threshold: Option<int>) returns (items: seq<LowStockItem>, used: int)
      ensures used == (if threshold.Some? then threshold.value else 10)
      ensures items == LowStock(records, catalog.products, used)
      ensures forall x :: x in items ==> x.currentStock <= used
    {
      used := if threshold.Some? then threshold.value else 10;
      items := [];
      var i := 0;
      while i < |records|
        invariant 0 <= i <= |records|
        invariant items == LowStock(records[..i], catalog.products, used)
      {
        assert records[..i + 1][..i] == records[..i];
        var rec := records[i];
        if rec.currentStock <= used {
          var p := ProductsApi.FindProduct(catalog.products, rec.productId);
          if p.Some? {
            items := items + [LowStockItem(rec.productId, p.value.name, rec.currentStock,
                                           rec.minimumStock, rec.maximumStock - rec.currentStock)];
          }
        }
        i := i + 1;
      }
      assert records[..i] == records;
      LowStockExact(records, catalog.products, used);
    }
  }

  /** A refused sale leaves the stock and the log of the record as they were;
      an accepted sale never drives the stock below zero. */
  lemma SaleGuard(rec: Record, q: int, reason: string, userId: Option<int>, now: int)
    ensures rec.currentStock < q ==> Apply(rec, SaleKind, q, reason, userId, now).None?
    ensures rec.currentStock >= q ==>
      Apply(rec, SaleKind, q, reason, userId, now).Some?
      && Apply(rec, SaleKind, q, reason, userId, now).value.currentStock >= 0
      && Apply(rec, SaleKind, q, reason, userId, now).value.movements[|rec.movements|].quantity == -q
  {
  }

  /** A first restock of `q` for an unknown product seeds the record with `q`
      and then adds `q` again, while the log shows a single `+q`; a first sale
      of a positive quantity fails against the seeded zero. */
  lemma FirstMovement(records: seq<Record>, productId: int, q: int, now: int)
    requires FindRecord(records, productId).None?
    ensures var table := WithRecord(records, productId, RestockKind, q, None, None, now);
      var u := Apply(table[|records|], RestockKind, q, "", None, now);
      u.Some? && u.value.currentStock == 2 * q && u.value.movements == [Movement(now, RestockKind, q, 2 * q, "", None)]
    ensures q > 0 ==>
      var table := WithRecord(records, productId, SaleKind, q, None, None, now);
      |table| == |records| + 1 && Apply(table[|records|], SaleKind, q, "", None, now).None?
  {
  }
}
