/** The shop's product page (`ProductDetail.jsx`): the quantity selector, the
    amount on the add button and adding to the cart. */
module ProductDetail {
  import opened Common

  datatype Product = Product(id: int, price: int, stock: int)

  /** The selector starts at one. */
  const InitialQuantity := 1

  /** The selector is shown only for a product in stock. */
  predicate ShowsControls(p: Product)
  {
    p.stock > 0
  }

  /** The minus button: never below one. */
  function Fewer(q: int): (r: int)
    ensures r >= 1 && (q > 1 ==> r == q - 1) && (q <= 1 ==> r == 1)
  {
    if q - 1 > 1 then q - 1 else 1
  }

  /** The plus button: never above the stock. */
  function More(q: int, stock: int): (r: int)
    ensures r <= stock && (q < stock ==> r == q + 1) && (q >= stock ==> r == stock)
  {
    if q + 1 < stock then q + 1 else stock
  }

  /** A typed value (`None` when it does not parse as an integer) is taken
      only when it lies between one and the stock. */
  function Typed(q: int, typed: Option<int>, stock: int): (r: int)
    ensures typed.Some? && 1 <= typed.value <= stock ==> r == typed.value
    ensures !(typed.Some? && 1 <= typed.value <= stock) ==> r == q
  {
    if typed.Some? && 1 <= typed.value <= stock then typed.value else q
  }

  datatype Edit = Minus | Plus | Type(value: Option<int>)

  function Apply(q: int, e: Edit, stock: int): int
  {
    match e
    case Minus => Fewer(q)
    case Plus => More(q, stock)
    case Type(v) => Typed(q, v, stock)
  }

  function Run(q: int, edits: seq<Edit>, stock: int): int
  {
    if edits == [] then q else Apply(Run(q, edits[..|edits| - 1], stock), edits[|edits| - 1], stock)
  }

  /** For a product in stock the quantity starts between one and the stock
      and every edit keeps it there. */
  lemma {:induction false} QuantityInRange(p: Product, edits: seq<Edit>)
    requires ShowsControls(p)
    ensures 1 <= Run(InitialQuantity, edits, p.stock) <= p.stock
  {
    if edits != [] {
      QuantityInRange(p, edits[..|edits| - 1]);
    }
  }

  /** The amount on the add button: for a quantity the selector allows, at
      least one unit and at most the whole stock. */
  function ButtonAmount(p: Product, q: int): (r: int)
    ensures 1 <= q <= p.stock && p.price >= 0 ==> p.price <= r <= p.price * p.stock
  {
    p.price * q
  }

  /** Each press of the plus button raises the amount by one unit price. */
  lemma ButtonAmountStep(p: Product, q: int)
    ensures ButtonAmount(p, q + 1) == ButtonAmount(p, q) + p.price
  {
  }

  datatype AddOutcome = RedirectToLogin | Post(productId: int, quantity: int)

  /** `addToCart`: without a user it redirects to the login page and posts
      nothing; otherwise it posts the product and the chosen quantity. */
  function AddToCart(user: Option<string>, p: Product, q: int): (r: AddOutcome)
    ensures user.None? <==> r == RedirectToLogin
    ensures r.Post? ==> r.productId == p.id && r.quantity == q
  {
    if user.None? then RedirectToLogin else Post(p.id, q)
  }
}
