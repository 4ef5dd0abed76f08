/** The checkout page (`Checkout.jsx`): the grand total of the cart, the
    contact form check with its email pattern, and the booking payload sent
    to the payment session endpoint. */
module CheckoutPage {
  import opened Common
  import Store
  import ClientExtras

  datatype Form = Form(email: string, name: string, phone: string, country: string,
                       address: string, city: string, postalCode: string, specialRequests: string)

  /** The form as the page first shows it. */
  const InitialForm := Form("", "", "", "Italy", "", "", "", "")

  function Subtotal(e: Store.CartEntry): int { e.subtotal }

  /** `calculateGrandTotal`: the subtotals of the cart entries, summed. */
  function GrandTotal(cart: seq<Store.CartEntry>): int
  {
    Sum(cart, Subtotal)
  }

  /** Adding an entry raises the grand total by its subtotal. */
  lemma GrandTotalAfterAdd(s: Store.StoreValue, e: Store.CartEntry)
    ensures GrandTotal(Store.Reduce(s, Store.AddToCart(e)).cart) == GrandTotal(s.cart) + e.subtotal
  {
    assert (s.cart + [e])[..|s.cart|] == s.cart;
  }

  /** Removing the entry at a valid index lowers the grand total by its
      subtotal; any other index keeps it. */
  lemma GrandTotalAfterRemove(s: Store.StoreValue, i: int)
    ensures 0 <= i < |s.cart| ==>
      GrandTotal(Store.Reduce(s, Store.RemoveFromCart(i)).cart) == GrandTotal(s.cart) - s.cart[i].subtotal
    ensures !(0 <= i < |s.cart|) ==> GrandTotal(Store.Reduce(s, Store.RemoveFromCart(i)).cart) == GrandTotal(s.cart)
  {
    Store.RemoveAt(s.cart, i);
    if 0 <= i < |s.cart| {
      assert s.cart == s.cart[..i] + ([s.cart[i]] + s.cart[i + 1..]);
      SumAppend(s.cart[..i], [s.cart[i]] + s.cart[i + 1..], Subtotal);
      SumAppend([s.cart[i]], s.cart[i + 1..], Subtotal);
      SumAppend(s.cart[..i], s.cart[i + 1..], Subtotal);
      assert [s.cart[i]][..0] == [];
    }
  }

  /** The characters `\s` matches in the ASCII range. */
  predicate IsSpace(c: char)
  {
    c == ' ' || c == '\t' || c == '\n' || c == '\r' || c == '\U{000B}' || c == '\U{000C}'
  }

  /** A run `[^\s@]+` matches: non-empty, without whitespace or `@`. */
  predicate Plain(s: string)
  {
    |s| > 0 && forall k :: 0 <= k < |s| ==> !IsSpace(s[k]) && s[k] != '@'
  }

  /** `/^[^\s@]+@[^\s@]+\.[^\s@]+$/.test(s)`: the string splits at an `@` and a
      later `.` into three plain runs. */
  predicate EmailMatches(s: string)
  {
    exists i, j :: 0 < i && i + 1 < j < |s| - 1 && s[i] == '@' && s[j] == '.'
      && Plain(s[..i]) && Plain(s[i + 1..j]) && Plain(s[j + 1..])
  }

  /** The same pattern in words: no whitespace, exactly one `@` with
      something before it, and after it a `.` that is neither the first nor
      the last character of the domain. */
  predicate EmailShape(s: string)
  {
    (forall k :: 0 <= k < |s| ==> !IsSpace(s[k]))
    && (exists i :: 0 < i < |s| && s[i] == '@'
          && (forall k :: 0 <= k < |s| && k != i ==> s[k] != '@')
          && exists j :: i + 1 < j < |s| - 1 && s[j] == '.')
  }

  lemma EmailPatternMeaning(s: string)
    ensures EmailMatches(s) <==> EmailShape(s)
  {
    if EmailMatches(s) {
      MatchHasShape(s);
    }
    if EmailShape(s) {
      ShapeMatches(s);
    }
  }

  /** A string the pattern matches has the shape. */
  lemma MatchHasShape(s: string)
    requires EmailMatches(s)
    ensures EmailShape(s)
  {
    var i, j :| 0 < i && i + 1 < j < |s| - 1 && s[i] == '@' && s[j] == '.'
      && Plain(s[..i]) && Plain(s[i + 1..j]) && Plain(s[j + 1..]);
    forall k | 0 <= k < |s| && k != i
      ensures !IsSpace(s[k]) && s[k] != '@'
    {
      if k < i {
        assert s[..i][k] == s[k];
      } else if k < j {
        assert s[i + 1..j][k - i - 1] == s[k];
      } else if k > j {
        assert s[j + 1..][k - j - 1] == s[k];
      }
    }
  }

  /** A string of that shape is split by the pattern at its `@` and a later `.`. */
  lemma ShapeMatches(s: string)
    requires EmailShape(s)
    ensures EmailMatches(s)
  {
    var i :| 0 < i < |s| && s[i] == '@'
      && (forall k :: 0 <= k < |s| && k != i ==> s[k] != '@')
      && exists j :: i + 1 < j < |s| - 1 && s[j] == '.';
    var j :| i + 1 < j < |s| - 1 && s[j] == '.';
    assert Plain(s[..i]) by {
      forall k | 0 <= k < i ensures !IsSpace(s[..i][k]) && s[..i][k] != '@' {
        assert s[..i][k] == s[k];
      }
    }
    var domain, top := s[i + 1..j], s[j + 1..];
    assert Plain(domain) by {
      forall k | 0 <= k < |domain| ensures !IsSpace(domain[k]) && domain[k] != '@' {
        assert domain[k] == s[i + 1 + k];
      }
    }
    assert Plain(top) by {
      forall k | 0 <= k < |top| ensures !IsSpace(top[k]) && top[k] != '@' {
        assert top[k] == s[j + 1 + k];
      }
    }
  }

  datatype FormError = MissingRequired | InvalidEmail

  /** `validateForm`: email, name and phone are required, then the email
      must match the pattern. */
  function ValidateForm(f: Form): (r: Result<Form, FormError>)
    ensures f.email == "" || f.name == "" || f.phone == "" <==> r == Err(MissingRequired)
    ensures r.Ok? <==> f.email != "" && f.name != "" && f.phone != "" && EmailShape(f.email)
    ensures r.Ok? ==> r.value == f
  {
    EmailPatternMeaning(f.email);
    if f.email == "" || f.name == "" || f.phone == "" then Err(MissingRequired)
    else if !EmailMatches(f.email) then Err(InvalidEmail)
    else Ok(f)
  }

  /** One item of the payload; `None` is `null`. */
  datatype PayloadItem = PayloadItem(
    kind: string, id: int, name: string, date: Option<int>, checkIn: Option<int>, checkOut: Option<int>,
    guests: Option<int>, nights: Option<int>, price: int, extras: seq<ClientExtras.Extra>, subtotal: int)

  /** `x || y` on a number that may be missing: zero counts as missing. */
  function OrElse(x: Option<int>, y: Option<int>): (r: Option<int>)
    ensures x.Some? && x.value != 0 ==> r == x
    ensures x.None? || x.value == 0 ==> r == y
  {
    if x.Some? && x.value != 0 then x else y
  }

  /** The payload item of a cart entry: `guests || capacity`, and a zero or
      missing night count is sent as `null`. */
  function ItemPayload(e: Store.CartEntry): (p: PayloadItem)
    ensures p.guests == OrElse(e.guests, e.capacity)
    ensures p.nights.Some? <==> e.nights.Some? && e.nights.value != 0
    ensures p.subtotal == e.subtotal && p.date == e.date && p.checkIn == e.checkIn && p.checkOut == e.checkOut
  {
    PayloadItem(e.kind, e.id, e.name, e.date, e.checkIn, e.checkOut,
                OrElse(e.guests, e.capacity), OrElse(e.nights, None), e.price, e.extras, e.subtotal)
  }

  datatype Payload = Payload(form: Form, items: seq<PayloadItem>, totalAmount: int)

  /** The body posted by `handleSubmit`: the form, one item per cart entry in
      cart order, and the grand total. */
  function BuildPayload(f: Form, cart: seq<Store.CartEntry>): (p: Payload)
    ensures |p.items| == |cart| && forall i :: 0 <= i < |cart| ==> p.items[i] == ItemPayload(cart[i])
    ensures p.totalAmount == GrandTotal(cart)
  {
    Payload(f, seq(|cart|, i requires 0 <= i < |cart| => ItemPayload(cart[i])), GrandTotal(cart))
  }

  /** The items' subtotals add up to the amount sent. */
  lemma {:induction false} PayloadAddsUp(f: Form, cart: seq<Store.CartEntry>)
    ensures Sum(BuildPayload(f, cart).items, ItemSubtotal) == BuildPayload(f, cart).totalAmount
  {
    ItemsAddUp(cart);
  }

  function ItemSubtotal(p: PayloadItem): int { p.subtotal }

  lemma {:induction false} ItemsAddUp(cart: seq<Store.CartEntry>)
    ensures Sum(seq(|cart|, i requires 0 <= i < |cart| => ItemPayload(cart[i])), ItemSubtotal) == GrandTotal(cart)
  {
    if cart != [] {
      var init := cart[..|cart| - 1];
      ItemsAddUp(init);
      var items := seq(|cart|, i requires 0 <= i < |cart| => ItemPayload(cart[i]));
      assert items[..|items| - 1] == seq(|init|, i requires 0 <= i < |init| => ItemPayload(init[i]));
    }
  }

  datatype View = RedirectToCart | ShowForm

  /** An empty cart sends the visitor back to the cart and renders nothing. */
  function Render(cart: seq<Store.CartEntry>): (v: View)
    ensures v == RedirectToCart <==> |cart| == 0
  {
    if |cart| == 0 then RedirectToCart else ShowForm
  }
}
