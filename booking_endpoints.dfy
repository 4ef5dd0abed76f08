/** The booking table of `routes.py` and the endpoints that change it:
    adding a priced item to the cart, updating a cart item, checking the
    cart out and applying the payment provider's notifications. The payment
    provider, the clock and the id sequence are parameters. */
module BookingEndpoints {
  import opened Common
  import opened BookingModel
  import opened BookingPricing

  /** Minutes a cart item is kept after it is added or updated. */
  const CartMinutes := 30

  /** The outcome of asking the payment provider for an intent. */
  datatype IntentResult = IntentOk(intentId: string, status: string) | IntentRefused

  datatype CheckoutError =
    | NoBookingIds
    | NoCartItems
    | MissingExperience
    | NotEnoughSpots(experienceId: int)
    | RoomTaken(roomId: int)
    | PaymentError

  function CheckoutStatus(e: CheckoutError): int
  {
    match e
    case NoCartItems => 404
    case MissingExperience => 500
    case PaymentError => 500
    case _ => 400
  }

  datatype Receipt = Receipt(intentId: string, totalAmount: int, bookingIds: seq<int>)

  /** A notification as the webhook sees it once it is parsed and checked. */
  datatype Event =
    | InvalidPayload
    | InvalidSignature
    | IntentSucceeded(ids: seq<int>, status: string)
    | IntentFailed(ids: seq<int>, status: string)
    | OtherEvent(kind: string)

  function WebhookStatus(e: Event): int
  {
    if e.InvalidPayload? || e.InvalidSignature? then 400 else 200
  }

  /** The booking the webhook writes for an event: a success confirms it and
      marks it paid, a failure marks only the payment, anything else leaves
      it alone. */
  function Effect(e: Event, b: Booking): (r: Booking)
    ensures r.id == b.id && r.userId == b.userId && r.totalPrice == b.totalPrice && r.rooms == b.rooms
    ensures e.IntentSucceeded? ==> r.status == Confirmed && r.paymentStatus == Succeeded && r.stripeStatus == Some(e.status)
    ensures e.IntentFailed? ==> r.status == b.status && r.paymentStatus == Failed && r.stripeStatus == Some(e.status)
    ensures !e.IntentSucceeded? && !e.IntentFailed? ==> r == b
  {
    match e
    case IntentSucceeded(_, st) => b.(paymentStatus := Succeeded, status := Confirmed, stripeStatus := Some(st))
    case IntentFailed(_, st) => b.(paymentStatus := Failed, stripeStatus := Some(st))
    case _ => b
  }

  /** The ids an event names; none for one that changes nothing. */
  function Targets(e: Event): seq<int>
  {
    if e.IntentSucceeded? || e.IntentFailed? then e.ids else []
  }

  /** Applying an event twice to a booking is the same as applying it once,
      so a repeated id in the notification is harmless. */
  lemma EffectIdempotent(e: Event, b: Booking)
    ensures Effect(e, Effect(e, b)) == Effect(e, b)
  {
  }

  /** The cart item that `POST /cart` stores for a priced request. */
  function NewCartItem(id: int, userId: int, req: CartRequest, p: Priced, now: int): Booking
    requires req.guests.Some?
  {
    var dated := req.checkIn.Some? && req.checkOut.Some?;
    Booking(id, userId, req.experienceId, req.packageId, req.experienceDate,
            if dated then req.checkIn else None, if dated then req.checkOut else None,
            req.guests.value, Cart, PaymentPending, p.total, p.rooms, p.extras,
            req.specialRequests, None, None, Some(now + CartMinutes))
  }

  /** A cart item after `PUT /cart/<id>`: a truthy guest count replaces the
      stored one, a present `special_requests` key replaces the notes, a
      non-empty extras list replaces the extras and re-prices the booking,
      and the expiry restarts. */
  function Revised(c: Catalog, b: Booking, guests: Option<int>, requests: Option<Option<string>>,
                   extras: seq<ExtraRequest>, now: int): Booking
  {
    var g := if Present(guests) then guests.value else b.guests;
    var b1 := b.(guests := g, specialRequests := if requests.Some? then requests.value else b.specialRequests);
    var b2 := if extras == [] then b1
              else
                var kept := KeptExtras(c, extras, g);
                b1.(extras := kept, totalPrice := StoredBase(c, b1) + Sum(b1.rooms, RoomPrice) + Sum(kept, ExtraLinePrice));
    b2.(cartExpiresAt := Some(now + CartMinutes))
  }

  /** The update steps of `update_cart_item` on one booking, with the
      re-pricing loops run only for a non-empty extras list. */
  method Revise(c: Catalog, b: Booking, guests: Option<int>, requests: Option<Option<string>>,
                extras: seq<ExtraRequest>, now: int) returns (r: Booking)
    ensures r == Revised(c, b, guests, requests, extras, now)
  {
    r := b;
    if Present(guests) {
      r := r.(guests := guests.value);
    }
    if requests.Some? {
      r := r.(specialRequests := requests.value);
    }
    if extras != [] {
      var total, kept := Reprice(c, r, extras);
      r := r.(extras := kept, totalPrice := total);
    }
    r := r.(cartExpiresAt := Some(now + CartMinutes));
  }

  /** Changing only the guest count leaves the stored total as it was: the
      price is recomputed only when new extras are sent. */
  lemma GuestsAloneKeepTotal(c: Catalog, b: Booking, guests: Option<int>, requests: Option<Option<string>>, now: int)
    ensures Revised(c, b, guests, requests, [], now).totalPrice == b.totalPrice
    ensures Revised(c, b, guests, requests, [], now).extras == b.extras
    ensures Present(guests) ==> Revised(c, b, guests, requests, [], now).guests == guests.value
  {
  }

  /** With new extras the total is rebuilt from the new guest count, the
      stored room prices and the usable extras, each priced by its type. */
  lemma RevisedTotal(c: Catalog, b: Booking, guests: Option<int>, requests: Option<Option<string>>,
                     extras: seq<ExtraRequest>, now: int)
    requires extras != []
    ensures var r := Revised(c, b, guests, requests, extras, now);
      r.totalPrice == StoredBase(c, r) + Sum(b.rooms, RoomPrice) + Sum(r.extras, ExtraLinePrice)
      && forall e :: e in r.extras <==>
        exists i :: 0 <= i < |extras| && UsableExtra(c, extras[i].extraId) && e == ExtraLine(c, extras[i], r.guests)
  {
    var g := if Present(guests) then guests.value else b.guests;
    KeptExtrasFacts(c, extras, g);
  }

  /** The booking the checkout and update queries select: one of the user's
      cart items with one of the given ids. */
  function Chosen(userId: int, ids: seq<int>): Booking -> bool
  {
    (b: Booking) => b.id in ids && b.userId == userId && b.status == Cart
  }

  /** Some night of a room line is taken by another booking that holds it. */
  predicate Clash(all: seq<Booking>, b: Booking, line: BookingRoom)
  {
    exists d :: line.checkIn <= d < line.checkOut && Occupied(all, line.roomId, d, Some(b.id))
  }

  /** The first room line of a booking that clashes. */
  function FirstClash(all: seq<Booking>, b: Booking, lines: seq<BookingRoom>): (r: Option<int>)
    ensures r.None? <==> forall j :: 0 <= j < |lines| ==> !Clash(all, b, lines[j])
    ensures r.Some? ==> exists j :: 0 <= j < |lines| && Clash(all, b, lines[j]) && r.value == lines[j].roomId
  {
    if lines == [] then None
    else if Clash(all, b, lines[0]) then Some(lines[0].roomId)
    else
      var rest := FirstClash(all, b, lines[1..]);
      assert forall j :: 1 <= j < |lines| ==> lines[1..][j - 1] == lines[j];
      rest
  }

  /** Why one selected booking cannot be checked out, if it cannot: its
      experience date no longer has places for its guests (other holding
      bookings counted), or one of its rooms is taken on one of its nights. */
  function Issue(all: seq<Booking>, c: Catalog, b: Booking): (r: Option<CheckoutError>)
    ensures r.None? <==>
      (Present(b.experienceId) && b.experienceDate.Some? ==>
         FindExperience(c.experiences, b.experienceId.value).Some?
         && FindExperience(c.experiences, b.experienceId.value).value.maxCapacity
            - BookedSpots(all, b.experienceId.value, b.experienceDate.value, Some(b.id)) >= b.guests)
      && forall j :: 0 <= j < |b.rooms| ==> !Clash(all, b, b.rooms[j])
    ensures r.Some? && r.value.RoomTaken? ==>
      exists j :: 0 <= j < |b.rooms| && Clash(all, b, b.rooms[j]) && b.rooms[j].roomId == r.value.roomId
  {
    if Present(b.experienceId) && b.experienceDate.Some? && FindExperience(c.experiences, b.experienceId.value).None? then
      Some(MissingExperience)
    else if Present(b.experienceId) && b.experienceDate.Some?
      && FindExperience(c.experiences, b.experienceId.value).value.maxCapacity
         - BookedSpots(all, b.experienceId.value, b.experienceDate.value, Some(b.id)) < b.guests then
      Some(NotEnoughSpots(b.experienceId.value))
    else if FirstClash(all, b, b.rooms).Some? then
      Some(RoomTaken(FirstClash(all, b, b.rooms).value))
    else None
  }

  /** The first issue among the selected bookings, in table order. */
  function Issues(all: seq<Booking>, c: Catalog, sel: seq<Booking>): Option<CheckoutError>
  {
    if sel == [] then None
    else if Issue(all, c, sel[0]).Some? then Issue(all, c, sel[0])
    else Issues(all, c, sel[1..])
  }

  /** Checkout passes exactly when no selected booking has an issue. */
  lemma {:induction false} IssuesNoneExact(all: seq<Booking>, c: Catalog, sel: seq<Booking>)
    ensures Issues(all, c, sel).None? <==> forall i :: 0 <= i < |sel| ==> Issue(all, c, sel[i]).None?
  {
    if sel != [] {
      IssuesNoneExact(all, c, sel[1..]);
      assert forall i :: 1 <= i < |sel| ==> sel[1..][i - 1] == sel[i];
    }
  }

  /** Checks one booking the way checkout does: the experience places, then
      every night of every room line. */
  method Vet(all: seq<Booking>, c: Catalog, b: Booking) returns (issue: Option<CheckoutError>)
    ensures issue == Issue(all, c, b)
  {
    issue := None;
    if Present(b.experienceId) && b.experienceDate.Some? {
      var exp := FindExperience(c.experiences, b.experienceId.value);
      if exp.None? {
        return Some(MissingExperience);
      }
      var booked := BookedSpots(all, b.experienceId.value, b.experienceDate.value, Some(b.id));
      if exp.value.maxCapacity - booked < b.guests {
        return Some(NotEnoughSpots(b.experienceId.value));
      }
    }
    var j := 0;
    while j < |b.rooms|
      invariant 0 <= j <= |b.rooms|
      invariant FirstClash(all, b, b.rooms) == FirstClash(all, b, b.rooms[j..])
    {
      var line := b.rooms[j];
      var d := line.checkIn;
      while d < line.checkOut
        invariant line.checkIn <= d || line.checkOut <= line.checkIn
        invariant forall d' :: line.checkIn <= d' < d ==> !Occupied(all, line.roomId, d', Some(b.id))
        decreases line.checkOut - d
      {
        if Occupied(all, line.roomId, d, Some(b.id)) {
          assert Clash(all, b, line);
          assert b.rooms[j..][0] == line;
          return Some(RoomTaken(line.roomId));
        }
        d := d + 1;
      }
      assert !Clash(all, b, line);
      assert b.rooms[j..][1..] == b.rooms[j + 1..];
      j := j + 1;
    }
    assert b.rooms[j..] == [];
  }

  /** The vetting loop of `checkout`: the selected bookings in table order,
      stopping at the first issue. */
  method VetAll(all: seq<Booking>, c: Catalog, sel: seq<Booking>) returns (issue: Option<CheckoutError>)
    ensures issue == Issues(all, c, sel)
  {
    var i := 0;
    while i < |sel|
      invariant 0 <= i <= |sel|
      invariant Issues(all, c, sel) == Issues(all, c, sel[i..])
    {
      issue := Vet(all, c, sel[i]);
      if issue.Some? {
        assert sel[i..][0] == sel[i];
        return;
      }
      assert sel[i..][1..] == sel[i + 1..];
      i := i + 1;
    }
    assert sel[i..] == [];
    issue := None;
  }

  /** A selected booking once checked out: pending, payment processing, tied
      to the intent and no longer expiring. */
  function Settled(b: Booking, intentId: string, status: string): Booking
  {
    b.(status := Pending, paymentStatus := Processing, intentId := Some(intentId),
       stripeStatus := Some(status), cartExpiresAt := None)
  }

  function Id(b: Booking): int { b.id }

  /** The ids of a list of bookings, in order. */
  function Ids(s: seq<Booking>): (r: seq<int>)
    ensures |r| == |s| && forall i :: 0 <= i < |s| ==> r[i] == s[i].id
  {
    if s == [] then [] else Ids(s[..|s| - 1]) + [s[|s| - 1].id]
  }

  /** The first index of the booking with this id. */
  function IndexOf(s: seq<Booking>, id: int): (k: Option<nat>)
    ensures k.Some? ==> k.value < |s| && s[k.value].id == id
    ensures k.None? ==> forall m :: 0 <= m < |s| ==> s[m].id != id
  {
    if s == [] then None
    else if s[0].id == id then Some(0)
    else match IndexOf(s[1..], id)
      case None => None
      case Some(k) => Some(k + 1)
  }

  /** The first index of the user's cart item with this id. */
  function CartIndex(s: seq<Booking>, userId: int, id: int): (k: Option<nat>)
    ensures k.Some? ==> k.value < |s| && s[k.value].id == id && s[k.value].userId == userId && s[k.value].status == Cart
    ensures k.None? ==> forall m :: 0 <= m < |s| ==> !(s[m].id == id && s[m].userId == userId && s[m].status == Cart)
  {
    if s == [] then None
    else if s[0].id == id && s[0].userId == userId && s[0].status == Cart then Some(0)
    else match CartIndex(s[1..], userId, id)
      case None => None
      case Some(k) => Some(k + 1)
  }

  /** Booking ids are positive, distinct and below the next one to be given. */
  ghost predicate Keyed(s: seq<Booking>, nextId: int)
  {
    1 <= nextId
    && (forall i :: 0 <= i < |s| ==> 0 < s[i].id < nextId)
    && (forall i, j :: 0 <= i < j < |s| ==> s[i].id != s[j].id)
  }

  /** Appending a booking numbered `nextId` and raising the counter keeps
      the ids distinct and below the counter. */
  lemma KeyedAppend(s: seq<Booking>, nextId: int, b: Booking)
    requires Keyed(s, nextId) && b.id == nextId
    ensures Keyed(s + [b], nextId + 1)
  {
  }

  /** A holding booking with a room line on night `d` occupies that night. */
  lemma OccupiedBy(all: seq<Booking>, i: int, j: int, d: int, exclude: Option<int>)
    requires 0 <= i < |all| && 0 <= j < |all[i].rooms| && Holds(all[i])
    requires exclude.None? || all[i].id != exclude.value
    requires all[i].rooms[j].checkIn <= d < all[i].rooms[j].checkOut
    ensures Occupied(all, all[i].rooms[j].roomId, d, exclude)
  {
  }

  /** Cart items never block one another at checkout: when nothing in the
      table holds a room yet, two cart items for the same room and night
      both pass the room check and both become pending. */
  lemma {:induction false} CartItemsDoNotClash(all: seq<Booking>, b: Booking, lines: seq<BookingRoom>)
    requires forall i :: 0 <= i < |all| ==> !Holds(all[i])
    ensures FirstClash(all, b, lines).None?
  {
    forall j | 0 <= j < |lines| ensures !Clash(all, b, lines[j]) {
      forall d | lines[j].checkIn <= d < lines[j].checkOut
        ensures !Occupied(all, lines[j].roomId, d, Some(b.id))
      {
      }
    }
  }

  /** After checkout settles two overlapping cart items of one room, that
      room's night is held twice. */
  lemma DoubleHold(b1: Booking, b2: Booking, d: int, intentId: string, status: string)
    requires |b1.rooms| > 0 && |b2.rooms| > 0 && b1.rooms[0].roomId == b2.rooms[0].roomId
    requires b1.rooms[0].checkIn <= d < b1.rooms[0].checkOut && b2.rooms[0].checkIn <= d < b2.rooms[0].checkOut
    requires b1.id != b2.id
    ensures var after := [Settled(b1, intentId, status), Settled(b2, intentId, status)];
      Occupied(after, b1.rooms[0].roomId, d, Some(b1.id)) && Occupied(after, b1.rooms[0].roomId, d, Some(b2.id))
  {
    var after := [Settled(b1, intentId, status), Settled(b2, intentId, status)];
    OccupiedBy(after, 1, 0, d, Some(b1.id));
    OccupiedBy(after, 0, 0, d, Some(b2.id));
  }

  /** The `Booking` table. */
  class Bookings {
    var bookings: seq<Booking>
    var nextId: int
    const catalog: Catalog

    ghost predicate Valid()
      reads this
    {
      Keyed(bookings, nextId)
    }

    constructor (c: Catalog)
      ensures Valid() && bookings == [] && nextId == 1 && catalog == c
    {
      bookings := [];
      nextId := 1;
      catalog := c;
    }

    /** `add_to_cart`: prices the request and, when it is accepted, appends
        one cart item with the next id; a refused request stores nothing. */
    method AddToCart(userId: int, req: CartRequest, now: int) returns (r: Result<Booking, PriceError>)
      requires Valid()
      modifies this
      ensures Valid()
      ensures Pricing(catalog, req).Err? ==>
        r == Err(Pricing(catalog, req).error) && bookings == old(bookings) && nextId == old(nextId)
      ensures Pricing(catalog, req).Ok? ==>
        r == Ok(NewCartItem(old(nextId), userId, req, Pricing(catalog, req).value, now))
        && bookings == old(bookings) + [r.value] && nextId == old(nextId) + 1
    {
      var priced := PriceBooking(catalog, req);
      if priced.Err? {
        return Err(priced.error);
      }
      var b := NewCartItem(nextId, userId, req, priced.value, now);
      KeyedAppend(bookings, nextId, b);
      bookings := bookings + [b];
      nextId := nextId + 1;
      r := Ok(b);
    }

    /** `update_cart_item`: only the user's own cart item can be changed;
        the re-pricing loops run when new extras are sent. */
    method UpdateCartItem(userId: int, id: int, guests: Option<int>, requests: Option<Option<string>>,
                          extras: seq<ExtraRequest>, now: int) returns (r: Option<Booking>)
      requires Valid()
      modifies this`bookings
      ensures Valid()
      ensures CartIndex(old(bookings), userId, id).None? ==> r.None? && bookings == old(bookings)
      ensures CartIndex(old(bookings), userId, id).Some? ==>
        var k := CartIndex(old(bookings), userId, id).value;
        r == Some(Revised(catalog, old(bookings)[k], guests, requests, extras, now))
        && bookings == old(bookings)[k := r.value]
    {
      var found := CartIndex(bookings, userId, id);
      if found.None? {
        return None;
      }
      var k := found.value;
      var b := Revise(catalog, bookings[k], guests, requests, extras, now);
      ghost var before := bookings;
      bookings := bookings[k := b];
      assert forall n :: 0 <= n < |bookings| ==> bookings[n].id == before[n].id;
      r := Some(b);
    }

    /** `checkout`: the user's cart items among `ids` are vetted in table
        order; when all pass and the payment provider opens an intent for
        their summed totals, each of them becomes pending with its payment
        processing. Any refusal changes nothing. */
    method Checkout(userId: int, ids: seq<int>, intent: IntentResult) returns (r: Result<Receipt, CheckoutError>)
      requires Valid()
      modifies this`bookings
      ensures Valid()
      ensures ids == [] ==> r == Err(NoBookingIds)
      ensures ids != [] && Filter(old(bookings), Chosen(userId, ids)) == [] ==> r == Err(NoCartItems)
      ensures r.Err? ==> bookings == old(bookings)
      ensures r.Ok? ==>
        var sel := Filter(old(bookings), Chosen(userId, ids));
        sel != [] && Issues(old(bookings), catalog, sel).None? && intent.IntentOk?
        && r.value == Receipt(intent.intentId, Sum(sel, TotalPrice), Ids(sel))
        && |bookings| == |old(bookings)|
        && forall m :: 0 <= m < |bookings| ==>
          bookings[m] == if Chosen(userId, ids)(old(bookings)[m]) then Settled(old(bookings)[m], intent.intentId, intent.status)
                         else old(bookings)[m]
      ensures ids != [] && Filter(old(bookings), Chosen(userId, ids)) != [] && intent.IntentOk?
              && Issues(old(bookings), catalog, Filter(old(bookings), Chosen(userId, ids))).None? ==>
                r.Ok?
      ensures ids != [] && Filter(old(bookings), Chosen(userId, ids)) != []
              && Issues(old(bookings), catalog, Filter(old(bookings), Chosen(userId, ids))).Some? ==>
                Some(r.error) == Issues(old(bookings), catalog, Filter(old(bookings), Chosen(userId, ids)))
      ensures ids != [] && Filter(old(bookings), Chosen(userId, ids)) != []
              && Issues(old(bookings), catalog, Filter(old(bookings), Chosen(userId, ids))).None? && intent.IntentRefused? ==>
                r == Err(PaymentError)
    {
      if ids == [] {
        return Err(NoBookingIds);
      }
      var chosen := Chosen(userId, ids);
      var sel := Filter(bookings, chosen);
      if sel == [] {
        return Err(NoCartItems);
      }
      var issue := VetAll(bookings, catalog, sel);
      if issue.Some? {
        return Err(issue.value);
      }
      if intent.IntentRefused? {
        return Err(PaymentError);
      }
      var total := Sum(sel, TotalPrice);
      SettleChosen(chosen, intent.intentId, intent.status);
      r := Ok(Receipt(intent.intentId, total, Ids(sel)));
    }

    /** The update loop of `create_checkout_session`: every chosen booking
        becomes pending with the intent recorded, the others stay as they were. */
    method SettleChosen(chosen: Booking -> bool, intentId: string, status: string)
      requires Valid()
      modifies this`bookings
      ensures Valid()
      ensures |bookings| == |old(bookings)|
      ensures forall m :: 0 <= m < |bookings| ==>
        bookings[m] == if chosen(old(bookings)[m]) then Settled(old(bookings)[m], intentId, status) else old(bookings)[m]
    {
      ghost var before := bookings;
      var m := 0;
      while m < |bookings|
        invariant 0 <= m <= |bookings| == |before|
        invariant forall n :: 0 <= n < m ==>
          bookings[n] == if chosen(before[n]) then Settled(before[n], intentId, status) else before[n]
        invariant forall n :: m <= n < |bookings| ==> bookings[n] == before[n]
        invariant forall n :: 0 <= n < |bookings| ==> bookings[n].id == before[n].id
      {
        if chosen(bookings[m]) {
          bookings := bookings[m := Settled(bookings[m], intentId, status)];
        }
        m := m + 1;
      }
    }

    /** `stripe_webhook`: a rejected notification changes nothing; for a
        success or failure, every listed id that names a booking gets the
        event's effect, and unlisted bookings are untouched. */
    method Webhook(e: Event) returns (status: int)
      requires Valid()
      modifies this`bookings
      ensures Valid()
      ensures status == WebhookStatus(e)
      ensures |bookings| == |old(bookings)|
      ensures forall m :: 0 <= m < |bookings| ==>
        bookings[m] == if old(bookings)[m].id in Targets(e) then Effect(e, old(bookings)[m]) else old(bookings)[m]
    {
      var ids := Targets(e);
      ghost var before := bookings;
      var i := 0;
      while i < |ids|
        invariant 0 <= i <= |ids|
        invariant |bookings| == |before|
        invariant forall n :: 0 <= n < |bookings| ==> bookings[n].id == before[n].id
        invariant forall n :: 0 <= n < |bookings| ==>
          bookings[n] == if before[n].id in ids[..i] then Effect(e, before[n]) else before[n]
      {
        assert ids[..i + 1] == ids[..i] + [ids[i]];
        var k := IndexOf(bookings, ids[i]);
        if k.Some? {
          EffectIdempotent(e, before[k.value]);
          bookings := bookings[k.value := Effect(e, bookings[k.value])];
        }
        i := i + 1;
      }
      assert ids[..i] == ids;
      status := WebhookStatus(e);
    }
  }
}
