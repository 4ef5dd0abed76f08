/** The application store of the booking front end (`storeReducer`): an
    index-addressed cart that only ever appends, mirrored into the browser's
    local storage under the key `'cart'`. */
module Store {
  import opened Common
  import opened ClientExtras

  /** A serialised JSON value the reducer stores without looking inside. */
  type Json = string

  /** One cart entry as the room and experience pages build it; money in
      cents, dates as day numbers, `None` for a field the entry lacks. */
  datatype CartEntry = CartEntry(
    kind: string, id: int, name: string,
    date: Option<int>, checkIn: Option<int>, checkOut: Option<int>,
    nights: Option<int>, guests: Option<int>, capacity: Option<int>,
    price: int, extras: seq<Extra>, subtotal: int)

  datatype StoreValue = StoreValue(
    message: Option<Json>,
    user: Option<Json>,
    cart: seq<CartEntry>,
    experiences: Json,
    rooms: Json,
    packages: Json,
    currentBooking: Option<Json>)

  datatype Action =
    | SetHello(message: Option<Json>)
    | SetExperiences(experiences: Json)
    | SetRooms(rooms: Json)
    | SetPackages(packages: Json)
    | SetUser(user: Option<Json>)
    | Logout
    | AddToCart(entry: CartEntry)
    | RemoveFromCart(index: int)
    | UpdateCartItem(index: int, item: CartEntry)
    | ClearCart
    | SetCurrentBooking(booking: Option<Json>)
    | ClearCurrentBooking
    | Unknown(actionType: string)

  predicate IsCartAction(a: Action)
  {
    a.AddToCart? || a.RemoveFromCart? || a.UpdateCartItem? || a.ClearCart?
  }

  const EmptyLists: Json := "[]"

  /** `initialStore()`: the cart is the persisted copy when there is one. */
  function InitialStore(saved: Option<seq<CartEntry>>): (s: StoreValue)
    ensures saved.Some? ==> s.cart == saved.value
    ensures saved.None? ==> s.cart == []
    ensures s.user.None? && s.message.None? && s.currentBooking.None?
  {
    StoreValue(None, None, if saved.Some? then saved.value else [],
               EmptyLists, EmptyLists, EmptyLists, None)
  }

  /** `cart.filter((_, index) => index !== i)`. */
  function WithoutIndex(cart: seq<CartEntry>, i: int): seq<CartEntry>
  {
    if cart == [] then []
    else WithoutIndex(cart[..|cart| - 1], i)
         + (if |cart| - 1 != i then [cart[|cart| - 1]] else [])
  }

  /** `cart.map((item, index) => index === i ? x : item)`. */
  function ReplaceIndex(cart: seq<CartEntry>, i: int, x: CartEntry): seq<CartEntry>
  {
    seq(|cart|, k requires 0 <= k < |cart| => if k == i then x else cart[k])
  }

  /** The store object `storeReducer` returns. */
  function Reduce(s: StoreValue, a: Action): (r: StoreValue)
    ensures IsCartAction(a) ==> r == s.(cart := r.cart)
    ensures !IsCartAction(a) && !a.Logout? ==> r.cart == s.cart
    ensures a.Logout? ==> r == s.(user := None, cart := [])
  {
    match a
    case SetHello(m) => s.(message := m)
    case SetExperiences(e) => s.(experiences := e)
    case SetRooms(r) => s.(rooms := r)
    case SetPackages(p) => s.(packages := p)
    case SetUser(u) => s.(user := u)
    case Logout => s.(user := None, cart := [])
    case AddToCart(e) => s.(cart := s.cart + [e])
    case RemoveFromCart(i) => s.(cart := WithoutIndex(s.cart, i))
    case UpdateCartItem(i, x) => s.(cart := ReplaceIndex(s.cart, i, x))
    case ClearCart => s.(cart := [])
    case SetCurrentBooking(b) => s.(currentBooking := b)
    case ClearCurrentBooking => s.(currentBooking := None)
    case Unknown(_) => s
  }

  /** The browser tab: the React store plus the two local-storage keys the
      reducer writes (`'cart'` and `'token'`). */
  class Session {
    var store: StoreValue
    var savedCart: Option<seq<CartEntry>>
    var token: Option<string>

    /** Reloading the page would rebuild the cart held in memory. */
    predicate InSync()
      reads this
    {
      InitialStore(savedCart).cart == store.cart
    }

    constructor (saved: Option<seq<CartEntry>>, savedToken: Option<string>)
      ensures store == InitialStore(saved)
      ensures savedCart == saved && token == savedToken
      ensures InSync()
    {
      store := InitialStore(saved);
      savedCart := saved;
      token := savedToken;
    }

    /** `dispatch(action)`: the store becomes the reducer's result; every
        cart change is written through to `'cart'`, and clearing or logging
        out deletes it. */
    method Dispatch(a: Action)
      modifies this
      ensures store == Reduce(old(store), a)
      ensures a.AddToCart? || a.RemoveFromCart? || a.UpdateCartItem? ==> savedCart == Some(store.cart)
      ensures a.ClearCart? || a.Logout? ==> savedCart == None
      ensures !IsCartAction(a) && !a.Logout? ==> savedCart == old(savedCart)
      ensures token == if a.Logout? then None else old(token)
      ensures old(InSync()) || IsCartAction(a) || a.Logout? ==> InSync()
    {
      match a {
        case Logout =>
          token := None;
          savedCart := None;
        case AddToCart(_) =>
          savedCart := Some(Reduce(store, a).cart);
        case RemoveFromCart(_) =>
          savedCart := Some(Reduce(store, a).cart);
        case UpdateCartItem(_, _) =>
          savedCart := Some(Reduce(store, a).cart);
        case ClearCart =>
          savedCart := None;
        case _ =>
      }
      store := Reduce(store, a);
    }
  }

  /** `add_to_cart` appends the entry last, never merges it with an equal
      one, and keeps the earlier entries. */
  lemma AddAppends(s: StoreValue, e: CartEntry)
    ensures var r := Reduce(s, AddToCart(e));
      |r.cart| == |s.cart| + 1 && r.cart[|s.cart|] == e && r.cart[..|s.cart|] == s.cart
      && r.(cart := s.cart) == s
  {
  }

  /** `remove_from_cart` deletes exactly the entry at the index and keeps the
      rest in order; any other index leaves the cart as it was. */
  lemma {:induction false} RemoveAt(cart: seq<CartEntry>, i: int)
    ensures 0 <= i < |cart| ==> WithoutIndex(cart, i) == cart[..i] + cart[i + 1..]
    ensures !(0 <= i < |cart|) ==> WithoutIndex(cart, i) == cart
  {
    if cart != [] {
      var c' := cart[..|cart| - 1];
      RemoveAt(c', i);
      if i == |cart| - 1 {
        assert c'[..i] == cart[..i];
      } else if 0 <= i < |cart| - 1 {
        assert c'[..i] == cart[..i];
        assert cart[i + 1..] == c'[i + 1..] + [cart[|cart| - 1]];
      }
    }
  }

  lemma RemoveFromCartEffect(s: StoreValue, i: int)
    ensures var r := Reduce(s, RemoveFromCart(i));
      (0 <= i < |s.cart| ==> r.cart == s.cart[..i] + s.cart[i + 1..])
      && (!(0 <= i < |s.cart|) ==> r == s)
      && r.(cart := s.cart) == s
  {
    RemoveAt(s.cart, i);
  }

  /** `update_cart_item` replaces only the entry at `payload.index`. */
  lemma UpdateAt(s: StoreValue, i: int, x: CartEntry)
    ensures var r := Reduce(s, UpdateCartItem(i, x));
      |r.cart| == |s.cart|
      && (0 <= i < |s.cart| ==> r.cart == s.cart[i := x])
      && (!(0 <= i < |s.cart|) ==> r == s)
      && r.(cart := s.cart) == s
  {
  }

  /** `clear_cart` and `logout` both leave an empty cart; `logout` also forgets
      the user. */
  lemma ClearAndLogoutEmpty(s: StoreValue)
    ensures Reduce(s, ClearCart).cart == [] && Reduce(s, Logout).cart == []
    ensures Reduce(s, Logout).user == None
  {
  }

  /** Actions that are not about the cart, other than `logout`, leave the cart
      alone; an unknown action returns the store itself. */
  lemma OtherActionsKeepCart(s: StoreValue, a: Action)
    requires !IsCartAction(a) && !a.Logout?
    ensures Reduce(s, a).cart == s.cart
    ensures a.Unknown? ==> Reduce(s, a) == s
  {
  }
}
