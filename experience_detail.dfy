/** The experience page (`ExperienceDetail.jsx`): the guest counter, the price
    shown for the party with the ticked extras, and the cart entry it
    dispatches. */
module ExperienceDetail {
  import opened Common
  import opened ClientExtras
  import Store

  /** An experience as returned by `/api/experiences/<id>`; money in cents. */
  datatype Experience = Experience(id: int, name: string, price: int, maxCapacity: int)

  datatype Refusal = MissingDate

  /** The guest counter starts at two whatever the experience allows. */
  const InitialGuests := 2

  /** The minus button: never below one. */
  function Fewer(guests: int): (r: int)
    ensures r >= 1
    ensures guests > 1 ==> r == guests - 1
    ensures guests <= 1 ==> r == 1
  {
    if guests - 1 > 1 then guests - 1 else 1
  }

  /** The plus button: never above the experience's capacity. */
  function More(guests: int, maxCapacity: int): (r: int)
    ensures r <= maxCapacity
    ensures guests < maxCapacity ==> r == guests + 1
    ensures guests >= maxCapacity ==> r == maxCapacity
  {
    if guests + 1 < maxCapacity then guests + 1 else maxCapacity
  }

  /** Once the counter is within `1..maxCapacity`, both buttons keep it
      there. */
  lemma ButtonsKeepRange(guests: int, maxCapacity: int)
    requires 1 <= guests <= maxCapacity
    ensures 1 <= Fewer(guests) <= maxCapacity
    ensures 1 <= More(guests, maxCapacity) <= maxCapacity
  {
  }

  /** The starting count can exceed a capacity of one: the plus button is
      then disabled (`guests >= max_capacity`), and the minus button brings
      the count down to the capacity. */
  lemma InitialMayExceedCapacity()
    ensures InitialGuests > Experience(0, "", 0, 1).maxCapacity
    ensures Fewer(InitialGuests) == Experience(0, "", 0, 1).maxCapacity
  {
  }

  /** What an extra adds: a per-guest extra is paid by every guest, any other
      once. */
  function ExtraCharge(guests: int, e: Extra): int
  {
    if e.kind == PerGuest then e.price * guests else e.price
  }

  function ChargeFor(guests: int): Extra -> int
  {
    (e: Extra) => ExtraCharge(guests, e)
  }

  /** The price of the party: every guest's place plus the ticked extras. */
  function PartyTotal(exp: Experience, guests: int, selected: seq<Extra>): int
  {
    exp.price * guests + Sum(selected, ChargeFor(guests))
  }

  /** `calculateTotal`: zero before the experience is loaded; otherwise the
      `forEach` loop adds each ticked extra to the places. */
  method CalculateTotal(exp: Option<Experience>, guests: int, selected: seq<Extra>) returns (total: int)
    ensures exp.None? ==> total == 0
    ensures exp.Some? ==> total == PartyTotal(exp.value, guests, selected)
  {
    if exp.None? {
      return 0;
    }
    total := exp.value.price * guests;
    var i := 0;
    while i < |selected|
      invariant 0 <= i <= |selected|
      invariant total == exp.value.price * guests + Sum(selected[..i], ChargeFor(guests))
    {
      var e := selected[i];
      assert selected[..i + 1] == selected[..i] + [e];
      SumAppend(selected[..i], [e], ChargeFor(guests));
      assert [e][..0] == [];
      if e.kind == PerGuest {
        total := total + e.price * guests;
      } else {
        total := total + e.price;
      }
      i := i + 1;
    }
    assert selected[..i] == selected;
  }

  /** Flat extras do not depend on the party, so one more guest adds the
      place price and the per-guest extras once each. */
  lemma {:induction false} OneMoreGuest(exp: Experience, guests: int, selected: seq<Extra>)
    ensures PartyTotal(exp, guests + 1, selected)
      == PartyTotal(exp, guests, selected) + exp.price + Sum(Filter(selected, PerGuestExtra), Price)
  {
    PerGuestStep(guests, selected);
  }

  predicate PerGuestExtra(e: Extra) { e.kind == PerGuest }

  function Price(e: Extra): int { e.price }

  lemma {:induction false} PerGuestStep(guests: int, s: seq<Extra>)
    ensures Sum(s, ChargeFor(guests + 1)) == Sum(s, ChargeFor(guests)) + Sum(Filter(s, PerGuestExtra), Price)
  {
    if s != [] {
      var init := s[..|s| - 1];
      PerGuestStep(guests, init);
      LastExtraStep(guests, s);
    }
  }

  /** The last extra of a list: what one more guest adds to its charge is
      what it adds to the per-guest prices. */
  lemma LastExtraStep(guests: int, s: seq<Extra>)
    requires s != []
    ensures Sum(s, ChargeFor(guests + 1)) - Sum(s, ChargeFor(guests))
      == Sum(s[..|s| - 1], ChargeFor(guests + 1)) - Sum(s[..|s| - 1], ChargeFor(guests))
         + (Sum(Filter(s, PerGuestExtra), Price) - Sum(Filter(s[..|s| - 1], PerGuestExtra), Price))
  {
    var init, e := s[..|s| - 1], s[|s| - 1];
    var kept := Filter(init, PerGuestExtra);
    assert Sum(s, ChargeFor(guests + 1)) == Sum(init, ChargeFor(guests + 1)) + ExtraCharge(guests + 1, e);
    assert Sum(s, ChargeFor(guests)) == Sum(init, ChargeFor(guests)) + ExtraCharge(guests, e);
    if e.kind == PerGuest {
      OneMorePayer(e.price, guests);
      assert Filter(s, PerGuestExtra) == kept + [e];
      assert (kept + [e])[..|kept|] == kept;
      assert Sum(kept + [e], Price) == Sum(kept, Price) + e.price;
    } else {
      assert Filter(s, PerGuestExtra) == kept;
    }
  }

  lemma OneMorePayer(price: int, guests: int)
    ensures price * (guests + 1) == price * guests + price
  {
  }

  /** `addToCart`: a date is required; the entry carries the date, the
      party, the place price, the ticked extras and the shown total. */
  method AddToCart(exp: Experience, date: Option<int>, guests: int, selected: seq<Extra>)
    returns (r: Result<Store.CartEntry, Refusal>)
    ensures date.None? <==> r == Err(MissingDate)
    ensures r.Ok? ==>
      r.value == Store.CartEntry("experience", exp.id, exp.name, date, None, None, None, Some(guests), None,
                                 exp.price, selected, PartyTotal(exp, guests, selected))
  {
    if date.None? {
      return Err(MissingDate);
    }
    var total := CalculateTotal(Some(exp), guests, selected);
    r := Ok(Store.CartEntry("experience", exp.id, exp.name, date, None, None, None, Some(guests), None,
                            exp.price, selected, total));
  }
}
