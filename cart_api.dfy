/** The server-side product cart (`cart.py`): a dictionary of carts, one per
    user, a list of cart items and an item counter, all module-level state
    updated in place. */
module CartApi {
  import opened Common

  /** A product of the fixed `available_products` list; `price` in cents. */
  datatype Product = Product(id: int, name: string, price: int, stock: int)

  const AvailableProducts: seq<Product> := [
    Product(1, "Producto Sostenible 1", 10050, 10),
    Product(2, "Producto Sostenible 2", 20000, 5),
    Product(3, "Producto Sostenible 3", 15075, 15)
  ]

  /** A row of `cart_items_db`; `cartId` is the owning user's id. */
  datatype CartItem = CartItem(id: int, cartId: int, productId: int, quantity: int)

  /** A cart row as `get_cart` lists it, joined with its product. */
  datatype EnrichedItem = EnrichedItem(
    item: CartItem, productName: string, productPrice: int,
    itemTotal: int, availableStock: int)

  datatype Summary = Summary(
    itemsCount: int, totalItems: int, subtotal: int,
    shipping: int, tax: int, total: int)

  datatype Error = MissingField | NegativeQuantity | InsufficientStock | ProductNotFound | ItemNotFound

  function StatusCode(e: Error): int
  {
    if e.ProductNotFound? || e.ItemNotFound? then 404 else 400
  }

  /** The flat shipping charge, in cents, for a non-empty cart. */
  const Shipping: int := 1000

  /** The product `next(...)` finds: a product with the id, or none when
      no product has it; `FindProductFirst` shows it is the first. */
  function FindProduct(products: seq<Product>, id: int): (r: Option<Product>)
    ensures r.Some? ==> r.value in products && r.value.id == id
    ensures r.None? ==> forall i :: 0 <= i < |products| ==> products[i].id != id
  {
    if products == [] then None
    else if products[0].id == id then Some(products[0])
    else FindProduct(products[1..], id)
  }

  /** The product found is the first one with the id. */
  lemma {:induction false} FindProductFirst(products: seq<Product>, id: int, k: int)
    requires 0 <= k < |products| && products[k].id == id
    requires forall j :: 0 <= j < k ==> products[j].id != id
    ensures FindProduct(products, id) == Some(products[k])
  {
    if k > 0 {
      assert products[0].id != id;
      assert forall j :: 0 <= j < k - 1 ==> products[1..][j] == products[j + 1];
      FindProductFirst(products[1..], id, k - 1);
    }
  }

  /** Index of the first item satisfying the lookup `next(...)` performs. */
  function FindItem(items: seq<CartItem>, id: int): (k: Option<nat>)
    ensures k.Some? ==> k.value < |items| && items[k.value].id == id
    ensures k.Some? ==> forall j :: 0 <= j < k.value ==> items[j].id != id
    ensures k.None? ==> forall j :: 0 <= j < |items| ==> items[j].id != id
  {
    if items == [] then None
    else if items[0].id == id then Some(0)
    else match FindItem(items[1..], id)
      case None => None
      case Some(k) => Some(k + 1)
  }

  function FindLine(items: seq<CartItem>, cartId: int, productId: int): (k: Option<nat>)
    ensures k.Some? ==> k.value < |items| && items[k.value].cartId == cartId && items[k.value].productId == productId
    ensures k.None? ==> forall j :: 0 <= j < |items| ==> !(items[j].cartId == cartId && items[j].productId == productId)
    ensures k.Some? ==> forall j :: 0 <= j < k.value ==> !(items[j].cartId == cartId && items[j].productId == productId)
  {
    if items == [] then None
    else if items[0].cartId == cartId && items[0].productId == productId then Some(0)
    else match FindLine(items[1..], cartId, productId)
      case None => None
      case Some(k) => Some(k + 1)
  }

  /** The items of one user, in table order. */
  function OfCart(cartId: int): CartItem -> bool
  {
    (x: CartItem) => x.cartId == cartId
  }

  function NotOfCart(cartId: int): CartItem -> bool
  {
    (x: CartItem) => x.cartId != cartId
  }

  function NotId(id: int): CartItem -> bool
  {
    (x: CartItem) => x.id != id
  }

  /** The row of one cart item, joined with its product; none when the
      product is gone. */
  function Row(item: CartItem, products: seq<Product>): (r: seq<EnrichedItem>)
    ensures |r| <= 1
  {
    match FindProduct(products, item.productId)
    case None => []
    case Some(p) => [EnrichedItem(item, p.name, p.price, p.price * item.quantity, p.stock)]
  }

  /** The rows `get_cart` lists: each item whose product exists, joined with it. */
  function Enrich(items: seq<CartItem>, products: seq<Product>): (r: seq<EnrichedItem>)
    ensures |r| <= |items|
  {
    if items == [] then []
    else Enrich(items[..|items| - 1], products) + Row(items[|items| - 1], products)
  }

  function ItemTotal(e: EnrichedItem): int { e.itemTotal }
  function ItemQuantity(e: EnrichedItem): int { e.item.quantity }

  /** An enriched row is an item of the cart whose product exists, priced at
      that product's price. */
  lemma {:induction false} EnrichSound(items: seq<CartItem>, products: seq<Product>)
    ensures forall e :: e in Enrich(items, products) ==>
      e.item in items && FindProduct(products, e.item.productId) == Some(Product(e.item.productId, e.productName, e.productPrice, e.availableStock))
      && e.itemTotal == e.productPrice * e.item.quantity
    ensures |Enrich(items, products)| <= |items|
  {
    if items != [] {
      EnrichSound(items[..|items| - 1], products);
    }
  }


  /** Extending a prefix of the cart by one item adds that item's row. */
  lemma EnrichStep(items: seq<CartItem>, i: int, products: seq<Product>)
    requires 0 <= i < |items|
    ensures Enrich(items[..i + 1], products) == Enrich(items[..i], products) + Row(items[i], products)
  {
    assert items[..i + 1][..i] == items[..i];
  }

  /** Every item whose product exists is listed. */
  lemma {:induction false} EnrichComplete(items: seq<CartItem>, products: seq<Product>, i: int)
    requires 0 <= i < |items| && FindProduct(products, items[i].productId).Some?
    ensures exists k :: 0 <= k < |Enrich(items, products)| && Enrich(items, products)[k].item == items[i]
  {
    var last := |items| - 1;
    var front := Enrich(items[..last], products);
    var row := Row(items[last], products);
    assert Enrich(items, products) == front + row;
    if i < last {
      assert items[..last][i] == items[i];
      EnrichComplete(items[..last], products, i);
      var k :| 0 <= k < |front| && front[k].item == items[i];
      assert (front + row)[k] == front[k];
    } else {
      assert row[0].item == items[i];
      assert (front + row)[|front|] == row[0];
    }
  }

  /** The `summary` block of `get_cart`, from the rows and their running
      totals. */
  method Summarize(userItems: seq<CartItem>, products: seq<Product>) returns (enriched: seq<EnrichedItem>, summary: Summary)
    ensures enriched == Enrich(userItems, products)
    ensures summary.itemsCount == |enriched|
    ensures summary.totalItems == Sum(enriched, ItemQuantity)
    ensures summary.subtotal == Sum(enriched, ItemTotal)
    ensures summary.shipping == (if summary.subtotal == 0 then 0 else Shipping)
    ensures summary.tax == Tax(summary.subtotal)
    ensures summary.total == summary.subtotal + summary.shipping + summary.tax
  {
    var total, count;
    enriched, total, count := Accumulate(userItems, products);
    var shipping := if total == 0 then 0 else Shipping;
    summary := Summary(|enriched|, count, total, shipping, Tax(total), total + shipping + Tax(total));
  }

  /** The row loop of `get_cart`: each item whose product exists is joined
      with it, and its total and quantity are added up. */
  method Accumulate(userItems: seq<CartItem>, products: seq<Product>) returns (enriched: seq<EnrichedItem>, total: int, count: int)
    ensures enriched == Enrich(userItems, products)
    ensures total == Sum(enriched, ItemTotal)
    ensures count == Sum(enriched, ItemQuantity)
  {
    enriched := [];
    total := 0;
    count := 0;
    var i := 0;
    while i < |userItems|
      invariant 0 <= i <= |userItems|
      invariant enriched == Enrich(userItems[..i], products)
      invariant total == Sum(enriched, ItemTotal)
      invariant count == Sum(enriched, ItemQuantity)
    {
      EnrichStep(userItems, i, products);
      enriched, total, count := AddRow(enriched, total, count, userItems[i], products);
      i := i + 1;
    }
    assert userItems[..i] == userItems;
  }

  /** One pass of the row loop: when the item's product exists, its row is
      appended and its total and quantity are added to the running sums. */
  method AddRow(enriched: seq<EnrichedItem>, total: int, count: int, item: CartItem, products: seq<Product>)
    returns (enriched': seq<EnrichedItem>, total': int, count': int)
    requires total == Sum(enriched, ItemTotal) && count == Sum(enriched, ItemQuantity)
    ensures enriched' == enriched + Row(item, products)
    ensures total' == Sum(enriched', ItemTotal) && count' == Sum(enriched', ItemQuantity)
  {
    enriched', total', count' := enriched, total, count;
    match FindProduct(products, item.productId) {
      case Some(p) =>
        var itemTotal := p.price * item.quantity;
        var e := EnrichedItem(item, p.name, p.price, itemTotal, p.stock);
        SumSnoc(enriched, e, ItemTotal);
        SumSnoc(enriched, e, ItemQuantity);
        total' := total + itemTotal;
        count' := count + item.quantity;
        enriched' := enriched + [e];
      case None =>
        assert enriched + [] == enriched;
    }
  }

  /** Items carry distinct ids below the counter, and a cart holds at most one
      item per product. */
  ghost predicate DistinctRows(a: CartItem, b: CartItem)
  {
    a.id != b.id && !(a.cartId == b.cartId && a.productId == b.productId)
  }

  class Tables {
    var carts: set<int>
    var items: seq<CartItem>
    var itemCounter: int
    const products: seq<Product>

    ghost predicate Valid()
      reads this
    {
      (forall i :: 0 <= i < |items| ==> items[i].id < itemCounter)
      && Pairwise(items, DistinctRows)
    }

    /** The tables at start-up: no carts, no items, the counter at 1. */
    constructor (catalogue: seq<Product>)
      ensures Valid()
      ensures carts == {} && items == [] && itemCounter == 1 && products == catalogue
    {
      carts := {};
      items := [];
      itemCounter := 1;
      products := catalogue;
    }

    /** `get_cart`: a user id is required (0 counts as missing); the first
        access creates the user's cart record. */
    method GetCart(userId: Option<int>) returns (r: Result<(seq<EnrichedItem>, Summary), Error>)
      modifies this`carts
      ensures userId.None? || userId.value == 0 ==> r == Err(MissingField) && carts == old(carts)
      ensures userId.Some? && userId.value != 0 ==> r.Ok? && carts == old(carts) + {userId.value}
      ensures r.Ok? ==> r.value.0 == Enrich(Filter(items, OfCart(userId.value)), products)
      ensures r.Ok? ==> r.value.1.subtotal == Sum(r.value.0, ItemTotal)
      ensures r.Ok? ==> r.value.1.total == r.value.1.subtotal + r.value.1.shipping + r.value.1.tax
      ensures r.Ok? ==> r.value.1.shipping == (if r.value.1.subtotal == 0 then 0 else Shipping)
      ensures r.Ok? ==> r.value.1.tax == Tax(r.value.1.subtotal)
      ensures r.Ok? ==> r.value.1.itemsCount == |r.value.0| && r.value.1.totalItems == Sum(r.value.0, ItemQuantity)
    {
      if userId.None? || userId.value == 0 {
        return Err(MissingField);
      }
      var uid := userId.value;
      carts := carts + {uid};
      var enriched, summary := Summarize(Filter(items, OfCart(uid)), products);
      r := Ok((enriched, summary));
    }

    /** `add_to_cart`: rejects a missing field, an unknown product and a
        quantity above its stock; otherwise merges into the user's line for
        that product (the merged total is not checked against stock) or
        appends a new line with the next item id. */
    method AddToCart(userId: Option<int>, productId: Option<int>, quantity: Option<int>) returns (r: Result<int, Error>)
      requires Valid()
      modifies this`carts, this`items, this`itemCounter
      ensures Valid()
      ensures var q := if quantity.Some? then quantity.value else 1;
        if userId.None? || productId.None? then r == Err(MissingField) && unchanged(this)
        else if FindProduct(products, productId.value).None? then r == Err(ProductNotFound) && unchanged(this)
        else if q > FindProduct(products, productId.value).value.stock then r == Err(InsufficientStock) && unchanged(this)
        else
          r == Ok(userId.value) && carts == old(carts) + {userId.value}
          && match FindLine(old(items), userId.value, productId.value)
             case Some(k) =>
               items == old(items)[k := old(items)[k].(quantity := old(items)[k].quantity + q)]
               && itemCounter == old(itemCounter)
             case None =>
               items == old(items) + [CartItem(old(itemCounter), userId.value, productId.value, q)]
               && itemCounter == old(itemCounter) + 1
    {
      if userId.None? || productId.None? {
        return Err(MissingField);
      }
      var uid, pid := userId.value, productId.value;
      var q := if quantity.Some? then quantity.value else 1;
      var product := FindProduct(products, pid);
      if product.None? {
        return Err(ProductNotFound);
      }
      if q > product.value.stock {
        return Err(InsufficientStock);
      }
      carts := carts + {uid};
      match FindLine(items, uid, pid) {
        case Some(k) =>
          items := items[k := items[k].(quantity := items[k].quantity + q)];
          assert forall i :: 0 <= i < |items| ==>
            items[i].id == old(items)[i].id && items[i].cartId == old(items)[i].cartId && items[i].productId == old(items)[i].productId;
        case None =>
          NewLineKeepsValid(items, itemCounter, CartItem(itemCounter, uid, pid, q));
          items := items + [CartItem(itemCounter, uid, pid, q)];
          itemCounter := itemCounter + 1;
      }
      r := Ok(uid);
    }

    /** `update_cart_item`: the checks run in the order of the endpoint; a
        quantity of 0 removes the item, any other sets it exactly. */
    method UpdateCartItem(itemId: int, quantity: Option<int>) returns (r: Result<string, Error>)
      requires Valid()
      modifies this`items
      ensures Valid()
      ensures quantity.None? ==> r == Err(MissingField) && items == old(items)
      ensures quantity.Some? && quantity.value < 0 ==> r == Err(NegativeQuantity) && items == old(items)
      ensures quantity.Some? && quantity.value >= 0 && FindItem(old(items), itemId).None? ==>
        r == Err(ItemNotFound) && items == old(items)
      ensures quantity.Some? && quantity.value >= 0 && FindItem(old(items), itemId).Some? ==>
        var item := old(items)[FindItem(old(items), itemId).value];
        var product := FindProduct(products, item.productId);
        if product.None? then r == Err(ProductNotFound) && items == old(items)
        else if quantity.value > product.value.stock then r == Err(InsufficientStock) && items == old(items)
        else if quantity.value == 0 then r.Ok? && items == Filter(old(items), NotId(itemId))
        else r.Ok? && items == old(items)[FindItem(old(items), itemId).value := item.(quantity := quantity.value)]
    {
      if quantity.None? {
        return Err(MissingField);
      }
      var q := quantity.value;
      if q < 0 {
        return Err(NegativeQuantity);
      }
      var k := FindItem(items, itemId);
      if k.None? {
        return Err(ItemNotFound);
      }
      var item := items[k.value];
      var product := FindProduct(products, item.productId);
      if product.None? {
        return Err(ProductNotFound);
      }
      if q > product.value.stock {
        return Err(InsufficientStock);
      }
      if q == 0 {
        RemoveKeepsValid(items, itemId, itemCounter);
        items := Filter(items, NotId(itemId));
        r := Ok("Item eliminado del carrito");
      } else {
        items := items[k.value := item.(quantity := q)];
        assert forall i :: 0 <= i < |items| ==>
          items[i].id == old(items)[i].id && items[i].cartId == old(items)[i].cartId && items[i].productId == old(items)[i].productId;
        r := Ok("Cantidad actualizada");
      }
    }

    /** `remove_from_cart`: 404 for an unknown id, otherwise only that item
        goes. */
    method RemoveFromCart(itemId: int) returns (r: Result<string, Error>)
      requires Valid()
      modifies this`items
      ensures Valid()
      ensures FindItem(old(items), itemId).None? ==> r == Err(ItemNotFound) && items == old(items)
      ensures FindItem(old(items), itemId).Some? ==> r.Ok? && items == Filter(old(items), NotId(itemId))
      ensures forall x :: x in items <==> x in old(items) && x.id != itemId
    {
      if FindItem(items, itemId).None? {
        return Err(ItemNotFound);
      }
      RemoveKeepsValid(items, itemId, itemCounter);
      items := Filter(items, NotId(itemId));
      r := Ok("Item eliminado del carrito");
    }

    /** `clear_cart`: every item of that user goes, no other. */
    method ClearCart(userId: Option<int>) returns (r: Result<string, Error>)
      requires Valid()
      modifies this`items
      ensures Valid()
      ensures userId.None? ==> r == Err(MissingField) && items == old(items)
      ensures userId.Some? ==> r.Ok? && items == Filter(old(items), NotOfCart(userId.value))
      ensures userId.Some? ==> forall x :: x in items <==> x in old(items) && x.cartId != userId.value
    {
      if userId.None? {
        return Err(MissingField);
      }
      var kept := Filter(items, NotOfCart(userId.value));
      FilterEmbeds(items, NotOfCart(userId.value));
      EmbedsPairwise(kept, items, DistinctRows);
      assert forall i :: 0 <= i < |kept| ==> kept[i] in kept;
      items := kept;
      r := Ok("Carrito vaciado");
    }
  }

  /** A new line numbered with the counter, for a product its cart does not
      hold yet, keeps ids distinct and below the raised counter. */
  lemma NewLineKeepsValid(items: seq<CartItem>, counter: int, x: CartItem)
    requires forall i :: 0 <= i < |items| ==> items[i].id < counter
    requires Pairwise(items, DistinctRows)
    requires x.id == counter
    requires forall j :: 0 <= j < |items| ==> !(items[j].cartId == x.cartId && items[j].productId == x.productId)
    ensures forall i :: 0 <= i < |items + [x]| ==> (items + [x])[i].id < counter + 1
    ensures Pairwise(items + [x], DistinctRows)
  {
  }

  /** Removing rows by id keeps ids distinct and below the counter. */
  lemma RemoveKeepsValid(items: seq<CartItem>, id: int, counter: int)
    requires forall i :: 0 <= i < |items| ==> items[i].id < counter
    requires Pairwise(items, DistinctRows)
    ensures var r := Filter(items, NotId(id));
      (forall i :: 0 <= i < |r| ==> r[i].id < counter) && Pairwise(r, DistinctRows)
  {
    var r := Filter(items, NotId(id));
    FilterEmbeds(items, NotId(id));
    EmbedsPairwise(r, items, DistinctRows);
    forall i | 0 <= i < |r| ensures r[i].id < counter {
      assert r[i] in r;
    }
  }

  /** With distinct ids, removing by id drops exactly the one row with it. */
  lemma {:induction false} RemoveExactlyOne(items: seq<CartItem>, k: int)
    requires 0 <= k < |items|
    requires forall i, j :: 0 <= i < j < |items| ==> items[i].id != items[j].id
    ensures Filter(items, NotId(items[k].id)) == items[..k] + items[k + 1..]
  {
    var init := items[..|items| - 1];
    if k == |items| - 1 {
      KeepAllOther(init, items[k].id);
      assert items[..k] == init;
    } else {
      assert forall i, j :: 0 <= i < j < |init| ==> init[i].id != init[j].id by {
        forall i, j | 0 <= i < j < |init| ensures init[i].id != init[j].id {
          assert init[i] == items[i] && init[j] == items[j];
        }
      }
      RemoveExactlyOne(init, k);
      RemovedBeforeLast(items, k);
    }
  }

  /** The step of `RemoveExactlyOne` for a row before the last: the last row
      is kept behind what the removal leaves of the others. */
  lemma RemovedBeforeLast(items: seq<CartItem>, k: int)
    requires 0 <= k < |items| - 1
    requires items[|items| - 1].id != items[k].id
    requires var init := items[..|items| - 1];
      Filter(init, NotId(items[k].id)) == init[..k] + init[k + 1..]
    ensures Filter(items, NotId(items[k].id)) == items[..k] + items[k + 1..]
  {
    var last := |items| - 1;
    var init := items[..last];
    assert Filter(items, NotId(items[k].id)) == Filter(init, NotId(items[k].id)) + [items[last]];
    assert init[..k] == items[..k];
    assert items[k + 1..] == init[k + 1..] + [items[last]];
  }

  lemma KeepAllOther(s: seq<CartItem>, id: int)
    requires forall j :: 0 <= j < |s| ==> s[j].id != id
    ensures Filter(s, NotId(id)) == s
  {
    forall j | 0 <= j < |s| ensures NotId(id)(s[j]) {
      assert s[j].id != id;
    }
    FilterAll(s, NotId(id));
  }
}
