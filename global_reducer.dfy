/** The product-shop reducer (`useGlobalReducer.jsx`): a cart keyed by
    `product_id` that merges on add and removes by id. The reducer never
    mutates; every case returns a fresh state. */
module GlobalReducer {
  import opened Common

  type Json = string

  /** A cart line: the product id, its quantity and the rest of the payload. */
  datatype LineItem = LineItem(productId: int, quantity: int, details: Json)

  datatype State = State(
    user: Option<Json>,
    cart: seq<LineItem>,
    quotes: Json,
    orders: Json,
    products: Json,
    isLoading: bool,
    error: Option<Json>,
    role: Option<string>)

  datatype Action =
    | Login(user: Option<Json>, role: Option<string>)
    | Logout
    | SetCart(cart: seq<LineItem>)
    | AddToCart(item: LineItem)
    | RemoveFromCart(productId: int)
    | UpdateCartItem(productId: int, quantity: int)
    | SetProducts(products: Json)
    | SetQuotes(quotes: Json)
    | SetOrders(orders: Json)
    | SetLoading(loading: bool)
    | SetError(error: Option<Json>)
    | Unknown(actionType: string)

  const InitialState: State := State(None, [], "[]", "[]", "[]", false, None, None)

  predicate HasProduct(cart: seq<LineItem>, id: int)
  {
    exists i :: 0 <= i < |cart| && cart[i].productId == id
  }

  predicate DistinctIds(cart: seq<LineItem>)
  {
    forall i, j :: 0 <= i < j < |cart| ==> cart[i].productId != cart[j].productId
  }

  /** `cart.map(item => item.product_id === id ? {...item, quantity: f(item)} : item)`
      for the two map cases. */
  function BumpQuantity(cart: seq<LineItem>, id: int): seq<LineItem>
  {
    seq(|cart|, k requires 0 <= k < |cart| =>
      if cart[k].productId == id then cart[k].(quantity := cart[k].quantity + 1) else cart[k])
  }

  function SetQuantity(cart: seq<LineItem>, id: int, q: int): seq<LineItem>
  {
    seq(|cart|, k requires 0 <= k < |cart| =>
      if cart[k].productId == id then cart[k].(quantity := q) else cart[k])
  }

  /** `item => item.product_id !== id`. */
  function OtherThan(id: int): LineItem -> bool
  {
    (x: LineItem) => x.productId != id
  }

  function Reduce(s: State, a: Action): (r: State)
    ensures a.AddToCart? || a.RemoveFromCart? || a.UpdateCartItem? || a.SetCart? ==> r == s.(cart := r.cart)
    ensures !(a.AddToCart? || a.RemoveFromCart? || a.UpdateCartItem? || a.SetCart? || a.Logout?) ==> r.cart == s.cart
    ensures a.AddToCart? ==> HasProduct(r.cart, a.item.productId)
  {
    match a
    case Login(u, r) => s.(user := u, role := r)
    case Logout => InitialState
    case SetCart(c) => s.(cart := c)
    case AddToCart(item) =>
      if HasProduct(s.cart, item.productId) then
        var k :| 0 <= k < |s.cart| && s.cart[k].productId == item.productId;
        assert BumpQuantity(s.cart, item.productId)[k].productId == item.productId;
        s.(cart := BumpQuantity(s.cart, item.productId))
      else
        assert (s.cart + [item.(quantity := 1)])[|s.cart|].productId == item.productId;
        s.(cart := s.cart + [item.(quantity := 1)])
    case RemoveFromCart(id) => s.(cart := Filter(s.cart, OtherThan(id)))
    case UpdateCartItem(id, q) => s.(cart := SetQuantity(s.cart, id, q))
    case SetProducts(p) => s.(products := p)
    case SetQuotes(q) => s.(quotes := q)
    case SetOrders(o) => s.(orders := o)
    case SetLoading(l) => s.(isLoading := l)
    case SetError(e) => s.(error := e)
    case Unknown(_) => s
  }

  /** Adding a product already in a cart of distinct ids raises exactly that
      line's quantity by one and changes nothing else. */
  lemma AddExistingIncrements(s: State, item: LineItem, k: int)
    requires DistinctIds(s.cart)
    requires 0 <= k < |s.cart| && s.cart[k].productId == item.productId
    ensures var c := Reduce(s, AddToCart(item)).cart;
      |c| == |s.cart|
      && c[k] == s.cart[k].(quantity := s.cart[k].quantity + 1)
      && (forall j :: 0 <= j < |c| && j != k ==> c[j] == s.cart[j])
  {
    assert HasProduct(s.cart, item.productId);
  }

  /** Adding a new product appends the payload with its quantity forced to 1. */
  lemma AddNewAppends(s: State, item: LineItem)
    requires !HasProduct(s.cart, item.productId)
    ensures Reduce(s, AddToCart(item)).cart == s.cart + [LineItem(item.productId, 1, item.details)]
  {
  }

  /** `ADD_TO_CART` keeps the product ids of the cart distinct. */
  lemma AddKeepsDistinct(s: State, item: LineItem)
    requires DistinctIds(s.cart)
    ensures DistinctIds(Reduce(s, AddToCart(item)).cart)
  {
    var c := Reduce(s, AddToCart(item)).cart;
    if !HasProduct(s.cart, item.productId) {
      forall i, j | 0 <= i < j < |c| ensures c[i].productId != c[j].productId {
        if j == |s.cart| {
          assert c[i] == s.cart[i];
        }
      }
    }
  }

  /** `REMOVE_FROM_CART` removes every line with the id and keeps the others in
      order; an id not in the cart changes nothing. */
  lemma {:induction false} RemoveFiltersId(cart: seq<LineItem>, id: int)
    ensures var r := Filter(cart, OtherThan(id));
      !HasProduct(r, id)
      && (forall x :: x in r <==> x in cart && x.productId != id)
      && Embeds(r, cart)
      && (!HasProduct(cart, id) ==> r == cart)
  {
    var r := Filter(cart, OtherThan(id));
    FilterEmbeds(cart, OtherThan(id));
    assert !HasProduct(r, id) by {
      forall i | 0 <= i < |r| ensures r[i].productId != id {
        assert r[i] in r;
      }
    }
    if !HasProduct(cart, id) {
      FilterKeepsOthers(cart, id);
    }
  }

  /** Filtering out an id the cart does not hold keeps every line. */
  lemma {:induction false} FilterKeepsOthers(cart: seq<LineItem>, id: int)
    requires !HasProduct(cart, id)
    ensures Filter(cart, OtherThan(id)) == cart
  {
    if cart != [] {
      var c' := cart[..|cart| - 1];
      assert !HasProduct(c', id) by {
        forall i | 0 <= i < |c'| ensures c'[i].productId != id {
          assert c'[i] == cart[i];
        }
      }
      FilterKeepsOthers(c', id);
      assert cart == c' + [cart[|cart| - 1]];
    }
  }

  /** `UPDATE_CART_ITEM` writes the quantity as given into every matching line,
      even 0 or a negative number, and keeps the line. */
  lemma UpdateSetsQuantity(s: State, id: int, q: int)
    ensures var c := Reduce(s, UpdateCartItem(id, q)).cart;
      |c| == |s.cart|
      && (forall k :: 0 <= k < |c| && s.cart[k].productId == id ==> c[k].quantity == q && c[k].productId == id)
      && (forall k :: 0 <= k < |c| && s.cart[k].productId != id ==> c[k] == s.cart[k])
  {
  }

  /** Adding a new product and removing it again gives the cart back; adding
      one already present and removing it drops the whole merged line. */
  lemma AddThenRemove(s: State, item: LineItem)
    ensures !HasProduct(s.cart, item.productId) ==>
      Reduce(Reduce(s, AddToCart(item)), RemoveFromCart(item.productId)) == s
    ensures var r := Reduce(Reduce(s, AddToCart(item)), RemoveFromCart(item.productId));
      !HasProduct(r.cart, item.productId)
  {
    var added := Reduce(s, AddToCart(item));
    RemoveFiltersId(added.cart, item.productId);
    if !HasProduct(s.cart, item.productId) {
      AddNewThenRemove(s, item);
    }
  }

  /** The first half of `AddThenRemove`: a new product's line is the only
      one the removal drops. */
  lemma AddNewThenRemove(s: State, item: LineItem)
    requires !HasProduct(s.cart, item.productId)
    ensures Reduce(Reduce(s, AddToCart(item)), RemoveFromCart(item.productId)) == s
  {
    var p := OtherThan(item.productId);
    var one := item.(quantity := 1);
    AddNewAppends(s, item);
    FilterKeepsOthers(s.cart, item.productId);
    FilterAppend(s.cart, [one], p);
    assert [one][..0] == [];
    assert Filter([one], p) == [];
  }

  /** `LOGOUT` resets everything; `SET_CART` replaces the cart wholesale; an
      unknown action returns the state itself. */
  lemma ResetsAndReplacements(s: State, c: seq<LineItem>, t: string)
    ensures Reduce(s, Logout) == InitialState
    ensures Reduce(s, Logout).cart == [] && Reduce(s, Logout).user.None? && Reduce(s, Logout).role.None?
    ensures Reduce(s, SetCart(c)) == s.(cart := c)
    ensures Reduce(s, Unknown(t)) == s
  {
  }
}
