/** The room page (`RoomDetail.jsx`): the night count, the price shown for a
    stay with the ticked extras, and the cart entry it dispatches. Dates are
    day numbers at midnight, `None` for an empty date field. */
module RoomDetail {
  import opened Common
  import opened ClientExtras
  import Store
  import BookingModel
  import BookingPricing

  /** A room as returned by `/api/rooms/<id>`; `pricePerNight` in cents. */
  datatype Room = Room(id: int, name: string, pricePerNight: int, capacity: int)

  datatype Refusal = MissingDates | CheckOutNotAfterCheckIn

  /** `calculateNights`: zero while a date is missing, otherwise the whole
      days between the two dates, whichever comes first. */
  function CalculateNights(checkIn: Option<int>, checkOut: Option<int>): (n: int)
    ensures n >= 0
    ensures checkIn.None? || checkOut.None? ==> n == 0
    ensures checkIn.Some? && checkOut.Some? ==>
      n == checkOut.value - checkIn.value || n == checkIn.value - checkOut.value
    ensures checkIn.Some? && checkOut.Some? && checkIn.value < checkOut.value ==> n == checkOut.value - checkIn.value
  {
    if checkIn.None? || checkOut.None? then 0
    else if checkIn.value <= checkOut.value then checkOut.value - checkIn.value
    else checkIn.value - checkOut.value
  }

  /** What an extra adds to a stay: a per-guest extra is paid by every place
      of the room for every night, any other once. */
  function ExtraCharge(room: Room, nights: int, e: Extra): int
  {
    if e.kind == PerGuest then e.price * room.capacity * nights else e.price
  }

  function ChargeFor(room: Room, nights: int): Extra -> int
  {
    (e: Extra) => ExtraCharge(room, nights, e)
  }

  /** The price of a stay: every night of the room plus the ticked extras. */
  function StayTotal(room: Room, nights: int, selected: seq<Extra>): int
  {
    room.pricePerNight * nights + Sum(selected, ChargeFor(room, nights))
  }

  /** `calculateTotal`: zero before the room is loaded; otherwise the
      `forEach` loop adds each ticked extra to the nightly charge. */
  method CalculateTotal(room: Option<Room>, checkIn: Option<int>, checkOut: Option<int>, selected: seq<Extra>)
    returns (total: int)
    ensures room.None? ==> total == 0
    ensures room.Some? ==> total == StayTotal(room.value, CalculateNights(checkIn, checkOut), selected)
  {
    if room.None? {
      return 0;
    }
    var r := room.value;
    var nights := CalculateNights(checkIn, checkOut);
    total := r.pricePerNight * nights;
    var i := 0;
    while i < |selected|
      invariant 0 <= i <= |selected|
      invariant total == r.pricePerNight * nights + Sum(selected[..i], ChargeFor(r, nights))
    {
      var e := selected[i];
      assert selected[..i + 1] == selected[..i] + [e];
      SumAppend(selected[..i], [e], ChargeFor(r, nights));
      assert [e][..0] == [];
      if e.kind == PerGuest {
        total := total + e.price * r.capacity * nights;
      } else {
        total := total + e.price;
      }
      i := i + 1;
    }
    assert selected[..i] == selected;
  }

  /** `addToCart`: both dates are required and the stay must end after it
      starts; the entry carries the room's capacity as its guests, the night
      count and the shown total as its subtotal. */
  method AddToCart(room: Room, checkIn: Option<int>, checkOut: Option<int>, selected: seq<Extra>)
    returns (r: Result<Store.CartEntry, Refusal>)
    ensures checkIn.None? || checkOut.None? <==> r == Err(MissingDates)
    ensures checkIn.Some? && checkOut.Some? && checkIn.value >= checkOut.value ==> r == Err(CheckOutNotAfterCheckIn)
    ensures checkIn.Some? && checkOut.Some? && checkIn.value < checkOut.value ==> r.Ok?
    ensures r.Ok? ==>
      var nights := checkOut.value - checkIn.value;
      nights > 0
      && r.value == Store.CartEntry("room", room.id, room.name, None, checkIn, checkOut,
                                    Some(nights), Some(room.capacity), None, room.pricePerNight,
                                    selected, StayTotal(room, nights, selected))
  {
    if checkIn.None? || checkOut.None? {
      return Err(MissingDates);
    }
    if checkIn.value >= checkOut.value {
      return Err(CheckOutNotAfterCheckIn);
    }
    var nights := CalculateNights(checkIn, checkOut);
    var total := CalculateTotal(Some(room), checkIn, checkOut, selected);
    r := Ok(Store.CartEntry("room", room.id, room.name, None, checkIn, checkOut,
                            Some(nights), Some(room.capacity), None, room.pricePerNight,
                            selected, total));
  }

  /** The same extra as the booking backend stores it. */
  function AsBackendExtra(e: Extra): BookingModel.Extra
  {
    BookingModel.Extra(e.id, e.name, e.price,
                       if e.kind == PerGuest then BookingModel.OtherType("per_guest") else BookingModel.PerBooking, true)
  }

  /** The page and the booking backend price extras differently: for a party
      filling the room and one unit, a per-guest extra costs the page the
      backend's price once for every night, so they agree on one night and
      the page shows more from two nights on; a flat extra costs both the
      same. */
  lemma ExtraChargeVersusBackend(room: Room, nights: int, e: Extra)
    ensures e.kind == PerGuest ==>
      ExtraCharge(room, nights, e) == nights * BookingPricing.ExtraPrice(AsBackendExtra(e), room.capacity, 1)
    ensures e.kind == Flat ==>
      ExtraCharge(room, nights, e) == BookingPricing.ExtraPrice(AsBackendExtra(e), room.capacity, 1)
    ensures e.kind == PerGuest && nights >= 2 && e.price > 0 && room.capacity > 0 ==>
      ExtraCharge(room, nights, e) > BookingPricing.ExtraPrice(AsBackendExtra(e), room.capacity, 1)
  {
    if e.kind == PerGuest {
      var once := e.price * room.capacity;
      assert ExtraCharge(room, nights, e) == once * nights;
      assert BookingPricing.ExtraPrice(AsBackendExtra(e), room.capacity, 1) == once;
      if nights >= 2 && e.price > 0 && room.capacity > 0 {
        assert once > 0;
        assert once * nights >= once * 2;
      }
    }
  }
}
