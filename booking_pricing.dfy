/** The booking price of the cart endpoints of `routes.py`: the experience
    times the guests, the package, each room for every night and each extra,
    accumulated in loops; the same rules re-price a cart item whose extras
    change. */
module BookingPricing {
  import opened Common
  import opened BookingModel

  datatype ExtraRequest = ExtraRequest(extraId: int, quantity: Option<int>)

  /** The body of `POST /cart`; `None` or an empty list for a falsy field. */
  datatype CartRequest = CartRequest(
    guests: Option<int>, experienceId: Option<int>, packageId: Option<int>,
    experienceDate: Option<int>, checkIn: Option<int>, checkOut: Option<int>,
    roomIds: seq<int>, extras: seq<ExtraRequest>, specialRequests: Option<string>)

  datatype PriceError =
    | MissingGuests
    | InvalidExperience
    | InvalidPackage
    | InvalidRoom(roomId: int)
    | InvalidExtra(extraId: int)

  /** 500 when `number_of_guests` is missing (the handler's catch-all), 400
      for an unknown or inactive catalogue entry. */
  function StatusCode(e: PriceError): int
  {
    if e.MissingGuests? then 500 else 400
  }

  datatype Priced = Priced(total: int, rooms: seq<BookingRoom>, extras: seq<BookingExtra>)

  function Quantity(x: ExtraRequest): int
  {
    if x.quantity.Some? then x.quantity.value else 1
  }

  /** A `PER_BOOKING` extra costs its price once; any other costs its price
      for every guest and every unit. */
  function ExtraPrice(e: Extra, guests: int, quantity: int): int
  {
    if e.kind == PerBooking then e.price else e.price * guests * quantity
  }

  predicate UsableRoom(c: Catalog, id: int)
  {
    FindRoom(c.rooms, id).Some? && FindRoom(c.rooms, id).value.isActive
  }

  predicate UsableExtra(c: Catalog, id: int)
  {
    FindExtra(c.extras, id).Some? && FindExtra(c.extras, id).value.isActive
  }

  /** The request names an experience that is unknown or inactive. */
  predicate BadExperience(c: Catalog, req: CartRequest)
  {
    Present(req.experienceId)
    && (FindExperience(c.experiences, req.experienceId.value).None?
        || !FindExperience(c.experiences, req.experienceId.value).value.isActive)
  }

  /** The request names a package that is unknown or inactive. */
  predicate BadPackage(c: Catalog, req: CartRequest)
  {
    Present(req.packageId)
    && (FindPackage(c.packages, req.packageId.value).None?
        || !FindPackage(c.packages, req.packageId.value).value.isActive)
  }

  /** The experience and package part of the price, or the first of them
      that is unknown or inactive. */
  function BaseCharge(c: Catalog, req: CartRequest, guests: int): (r: Result<int, PriceError>)
    ensures BadExperience(c, req) <==> r == Err(InvalidExperience)
    ensures !BadExperience(c, req) && BadPackage(c, req) <==> r == Err(InvalidPackage)
    ensures r.Ok? <==> !BadExperience(c, req) && !BadPackage(c, req)
    ensures r.Ok? ==>
      r.value == (if Present(req.experienceId) then FindExperience(c.experiences, req.experienceId.value).value.price * guests else 0)
                 + (if Present(req.packageId) then FindPackage(c.packages, req.packageId.value).value.price else 0)
    ensures r.Ok? && !Present(req.experienceId) && !Present(req.packageId) ==> r.value == 0
  {
    var exp := if Present(req.experienceId) then FindExperience(c.experiences, req.experienceId.value) else None;
    var pkg := if Present(req.packageId) then FindPackage(c.packages, req.packageId.value) else None;
    if Present(req.experienceId) && (exp.None? || !exp.value.isActive) then Err(InvalidExperience)
    else if Present(req.packageId) && (pkg.None? || !pkg.value.isActive) then Err(InvalidPackage)
    else Ok((if exp.Some? then exp.value.price * guests else 0) + (if pkg.Some? then pkg.value.price else 0))
  }

  function RoomLine(c: Catalog, id: int, checkIn: int, checkOut: int): BookingRoom
    requires UsableRoom(c, id)
  {
    var nights := checkOut - checkIn;
    BookingRoom(id, checkIn, checkOut, nights, FindRoom(c.rooms, id).value.pricePerNight * nights)
  }

  /** The room lines, in request order, or the first room that is unknown or
      inactive. */
  function PricedRooms(c: Catalog, ids: seq<int>, checkIn: int, checkOut: int): (r: Result<seq<BookingRoom>, PriceError>)
    ensures r.Err? ==> r.error.InvalidRoom?
  {
    if ids == [] then Ok([])
    else match PricedRooms(c, ids[..|ids| - 1], checkIn, checkOut)
      case Err(e) => Err(e)
      case Ok(lines) =>
        var id := ids[|ids| - 1];
        if !UsableRoom(c, id) then Err(InvalidRoom(id))
        else Ok(lines + [RoomLine(c, id, checkIn, checkOut)])
  }

  function ExtraLine(c: Catalog, x: ExtraRequest, guests: int): BookingExtra
    requires UsableExtra(c, x.extraId)
  {
    BookingExtra(x.extraId, Quantity(x), ExtraPrice(FindExtra(c.extras, x.extraId).value, guests, Quantity(x)))
  }

  /** The extra lines, in request order, or the first extra that is unknown
      or inactive. */
  function PricedExtras(c: Catalog, xs: seq<ExtraRequest>, guests: int): (r: Result<seq<BookingExtra>, PriceError>)
    ensures r.Err? ==> r.error.InvalidExtra?
  {
    if xs == [] then Ok([])
    else match PricedExtras(c, xs[..|xs| - 1], guests)
      case Err(e) => Err(e)
      case Ok(lines) =>
        var x := xs[|xs| - 1];
        if !UsableExtra(c, x.extraId) then Err(InvalidExtra(x.extraId))
        else Ok(lines + [ExtraLine(c, x, guests)])
  }

  /** Rooms are priced only when the request names rooms and both dates. */
  predicate WantsRooms(req: CartRequest)
  {
    req.roomIds != [] && req.checkIn.Some? && req.checkOut.Some?
  }

  /** The room lines of a request; none when it does not ask for rooms. */
  function RequestedRooms(c: Catalog, req: CartRequest): Result<seq<BookingRoom>, PriceError>
  {
    if WantsRooms(req) then PricedRooms(c, req.roomIds, req.checkIn.value, req.checkOut.value) else Ok([])
  }

  /** The first failure among the base charge, the rooms and the extras, in
      that order; otherwise their sum. */
  function Combine(base: Result<int, PriceError>, rooms: Result<seq<BookingRoom>, PriceError>,
                   extras: Result<seq<BookingExtra>, PriceError>): Result<Priced, PriceError>
  {
    if base.Err? then Err(base.error)
    else if rooms.Err? then Err(rooms.error)
    else if extras.Err? then Err(extras.error)
    else Ok(Priced(base.value + Sum(rooms.value, RoomPrice) + Sum(extras.value, ExtraLinePrice), rooms.value, extras.value))
  }

  /** What `add_to_cart` charges, or why it refuses. */
  function Pricing(c: Catalog, req: CartRequest): (r: Result<Priced, PriceError>)
    ensures req.guests.None? <==> r == Err(MissingGuests)
    ensures r.Ok? && !WantsRooms(req) ==> r.value.rooms == []
    ensures r.Ok? ==> !BadExperience(c, req) && !BadPackage(c, req)
  {
    if req.guests.None? then Err(MissingGuests)
    else
      var g := req.guests.value;
      Combine(BaseCharge(c, req, g), RequestedRooms(c, req), PricedExtras(c, req.extras, g))
  }

  /** Once a prefix of the rooms fails, the whole request fails the same way. */
  lemma {:induction false} PricedRoomsErrSticks(c: Catalog, ids: seq<int>, k: nat, checkIn: int, checkOut: int)
    requires k <= |ids| && PricedRooms(c, ids[..k], checkIn, checkOut).Err?
    ensures PricedRooms(c, ids, checkIn, checkOut) == PricedRooms(c, ids[..k], checkIn, checkOut)
    decreases |ids| - k
  {
    if k < |ids| {
      assert ids[..k + 1][..k] == ids[..k];
      PricedRoomsErrSticks(c, ids, k + 1, checkIn, checkOut);
    } else {
      assert ids[..k] == ids;
    }
  }

  lemma {:induction false} PricedExtrasErrSticks(c: Catalog, xs: seq<ExtraRequest>, k: nat, guests: int)
    requires k <= |xs| && PricedExtras(c, xs[..k], guests).Err?
    ensures PricedExtras(c, xs, guests) == PricedExtras(c, xs[..k], guests)
    decreases |xs| - k
  {
    if k < |xs| {
      assert xs[..k + 1][..k] == xs[..k];
      PricedExtrasErrSticks(c, xs, k + 1, guests);
    } else {
      assert xs[..k] == xs;
    }
  }

  /** The room lines exist exactly when every requested room is known and
      active; then line `i` is room `ids[i]` charged its nightly price for
      `checkOut - checkIn` nights, and otherwise the error names the first
      unusable room. */
  lemma {:induction false} PricedRoomsFacts(c: Catalog, ids: seq<int>, checkIn: int, checkOut: int)
    ensures PricedRooms(c, ids, checkIn, checkOut).Ok? <==> forall i :: 0 <= i < |ids| ==> UsableRoom(c, ids[i])
    ensures PricedRooms(c, ids, checkIn, checkOut).Ok? ==>
      var lines := PricedRooms(c, ids, checkIn, checkOut).value;
      |lines| == |ids|
      && forall i :: 0 <= i < |ids| ==>
        lines[i].roomId == ids[i] && lines[i].nights == checkOut - checkIn
        && lines[i].price == FindRoom(c.rooms, ids[i]).value.pricePerNight * (checkOut - checkIn)
    ensures PricedRooms(c, ids, checkIn, checkOut).Err? ==>
      exists k :: 0 <= k < |ids| && !UsableRoom(c, ids[k])
        && PricedRooms(c, ids, checkIn, checkOut).error == InvalidRoom(ids[k])
        && forall i :: 0 <= i < k ==> UsableRoom(c, ids[i])
  {
    if ids != [] {
      var init := ids[..|ids| - 1];
      PricedRoomsFacts(c, init, checkIn, checkOut);
      assert forall i :: 0 <= i < |init| ==> init[i] == ids[i];
    }
  }

  /** Likewise for extras: line `i` prices extra `xs[i]` by its type. */
  lemma {:induction false} PricedExtrasFacts(c: Catalog, xs: seq<ExtraRequest>, guests: int)
    ensures PricedExtras(c, xs, guests).Ok? <==> forall i :: 0 <= i < |xs| ==> UsableExtra(c, xs[i].extraId)
    ensures PricedExtras(c, xs, guests).Ok? ==>
      var lines := PricedExtras(c, xs, guests).value;
      |lines| == |xs|
      && forall i :: 0 <= i < |xs| ==>
        lines[i].extraId == xs[i].extraId && lines[i].quantity == Quantity(xs[i])
        && lines[i].price == ExtraPrice(FindExtra(c.extras, xs[i].extraId).value, guests, Quantity(xs[i]))
    ensures PricedExtras(c, xs, guests).Err? ==>
      exists k :: 0 <= k < |xs| && !UsableExtra(c, xs[k].extraId)
        && PricedExtras(c, xs, guests).error == InvalidExtra(xs[k].extraId)
        && forall i :: 0 <= i < k ==> UsableExtra(c, xs[i].extraId)
  {
    if xs != [] {
      var init := xs[..|xs| - 1];
      PricedExtrasFacts(c, init, guests);
      assert forall i :: 0 <= i < |init| ==> init[i] == xs[i];
    }
  }

  /** `add_to_cart` does not compare the dates: a stay whose check-out is
      not after its check-in is accepted, and each of its room lines counts
      no nights and charges nothing or less than nothing. */
  lemma StayNotAfterCheckInPriced(c: Catalog, req: CartRequest)
    requires req.guests.Some? && WantsRooms(req) && req.checkOut.value <= req.checkIn.value
    requires forall r :: r in c.rooms ==> r.pricePerNight >= 0
    ensures Pricing(c, req).Ok? ==>
      forall l :: l in Pricing(c, req).value.rooms ==> l.nights <= 0 && l.price <= 0
    ensures (BaseCharge(c, req, req.guests.value).Ok? && PricedExtras(c, req.extras, req.guests.value).Ok?
      && forall i :: 0 <= i < |req.roomIds| ==> UsableRoom(c, req.roomIds[i])) ==> Pricing(c, req).Ok?
  {
    var ci, co := req.checkIn.value, req.checkOut.value;
    var rooms := PricedRooms(c, req.roomIds, ci, co);
    PricedRoomsFacts(c, req.roomIds, ci, co);
    if rooms.Ok? {
      forall l | l in rooms.value ensures l.nights <= 0 && l.price <= 0 {
        var i :| 0 <= i < |rooms.value| && rooms.value[i] == l;
        NoNightsNoCharge(FindRoom(c.rooms, req.roomIds[i]).value.pricePerNight, co - ci);
      }
    }
  }

  lemma NoNightsNoCharge(pricePerNight: int, nights: int)
    requires pricePerNight >= 0 && nights <= 0
    ensures pricePerNight * nights <= 0
  {
  }

  /** The price loops of `add_to_cart`: `total_price` grows by the
      experience, the package, each room line and each extra line; an
      unusable room or extra aborts. Nothing is stored here. */
  method PriceBooking(c: Catalog, req: CartRequest) returns (r: Result<Priced, PriceError>)
    ensures r == Pricing(c, req)
    ensures r.Ok? ==>
      r.value.total == BaseCharge(c, req, req.guests.value).value + Sum(r.value.rooms, RoomPrice) + Sum(r.value.extras, ExtraLinePrice)
  {
    if req.guests.None? {
      return Err(MissingGuests);
    }
    var g := req.guests.value;
    var base := BaseCharge(c, req, g);
    if base.Err? {
      return Err(base.error);
    }
    var total := base.value;
    var rooms: Result<seq<BookingRoom>, PriceError> := Ok([]);
    if WantsRooms(req) {
      var roomTotal;
      rooms, roomTotal := PriceRooms(c, req.roomIds, req.checkIn.value, req.checkOut.value);
      if rooms.Err? {
        return Err(rooms.error);
      }
      total := total + roomTotal;
    }
    assert rooms == RequestedRooms(c, req) && total == base.value + Sum(rooms.value, RoomPrice);
    var extras, extraTotal := PriceExtras(c, req.extras, g);
    r := if extras.Err? then Err(extras.error) else Ok(Priced(total + extraTotal, rooms.value, extras.value));
    assert r == Combine(base, rooms, extras);
  }

  /** The room loop of `add_to_cart`: each room adds its nightly price
      times the nights; the first unusable room aborts. */
  method PriceRooms(c: Catalog, ids: seq<int>, ci: int, co: int) returns (r: Result<seq<BookingRoom>, PriceError>, total: int)
    ensures r == PricedRooms(c, ids, ci, co)
    ensures r.Ok? ==> total == Sum(r.value, RoomPrice)
  {
    var nights := co - ci;
    var rooms: seq<BookingRoom> := [];
    total := 0;
    var i := 0;
    while i < |ids|
      invariant 0 <= i <= |ids|
      invariant PricedRooms(c, ids[..i], ci, co) == Ok(rooms)
      invariant total == Sum(rooms, RoomPrice)
    {
      assert ids[..i + 1][..i] == ids[..i];
      var room := FindRoom(c.rooms, ids[i]);
      if room.None? || !room.value.isActive {
        PricedRoomsErrSticks(c, ids, i + 1, ci, co);
        return Err(InvalidRoom(ids[i])), total;
      }
      var line := BookingRoom(ids[i], ci, co, nights, room.value.pricePerNight * nights);
      SumAppend(rooms, [line], RoomPrice);
      assert [line][..0] == [];
      total := total + line.price;
      rooms := rooms + [line];
      i := i + 1;
    }
    assert ids[..i] == ids;
    r := Ok(rooms);
  }

  /** The extras loop of `add_to_cart`: each extra adds its price by type;
      the first unusable extra aborts. */
  method PriceExtras(c: Catalog, xs: seq<ExtraRequest>, g: int) returns (r: Result<seq<BookingExtra>, PriceError>, total: int)
    ensures r == PricedExtras(c, xs, g)
    ensures r.Ok? ==> total == Sum(r.value, ExtraLinePrice)
  {
    var extras: seq<BookingExtra> := [];
    total := 0;
    var j := 0;
    while j < |xs|
      invariant 0 <= j <= |xs|
      invariant PricedExtras(c, xs[..j], g) == Ok(extras)
      invariant total == Sum(extras, ExtraLinePrice)
    {
      assert xs[..j + 1][..j] == xs[..j];
      var x := xs[j];
      var extra := FindExtra(c.extras, x.extraId);
      if extra.None? || !extra.value.isActive {
        PricedExtrasErrSticks(c, xs, j + 1, g);
        return Err(InvalidExtra(x.extraId)), total;
      }
      var q := Quantity(x);
      var line := BookingExtra(x.extraId, q, ExtraPrice(extra.value, g, q));
      SumAppend(extras, [line], ExtraLinePrice);
      assert [line][..0] == [];
      total := total + line.price;
      extras := extras + [line];
      j := j + 1;
    }
    assert xs[..j] == xs;
    r := Ok(extras);
  }

  /** The extras `update_cart_item` keeps: unknown or inactive ones are
      skipped without complaint. */
  function KeptExtras(c: Catalog, xs: seq<ExtraRequest>, guests: int): seq<BookingExtra>
  {
    if xs == [] then []
    else
      var x := xs[|xs| - 1];
      KeptExtras(c, xs[..|xs| - 1], guests) + (if UsableExtra(c, x.extraId) then [ExtraLine(c, x, guests)] else [])
  }

  /** Each kept line is a usable requested extra priced by its type. */
  lemma {:induction false} KeptExtrasFacts(c: Catalog, xs: seq<ExtraRequest>, guests: int)
    ensures |KeptExtras(c, xs, guests)| <= |xs|
    ensures forall e :: e in KeptExtras(c, xs, guests) <==>
      exists i :: 0 <= i < |xs| && UsableExtra(c, xs[i].extraId) && e == ExtraLine(c, xs[i], guests)
    ensures (forall i :: 0 <= i < |xs| ==> UsableExtra(c, xs[i].extraId)) ==>
      Ok(KeptExtras(c, xs, guests)) == PricedExtras(c, xs, guests)
  {
    if xs != [] {
      var init := xs[..|xs| - 1];
      KeptExtrasFacts(c, init, guests);
      assert forall i :: 0 <= i < |init| ==> init[i] == xs[i];
      forall e | e in KeptExtras(c, xs, guests)
        ensures exists i :: 0 <= i < |xs| && UsableExtra(c, xs[i].extraId) && e == ExtraLine(c, xs[i], guests)
      {
        if e in KeptExtras(c, init, guests) {
          var i :| 0 <= i < |init| && UsableExtra(c, init[i].extraId) && e == ExtraLine(c, init[i], guests);
          assert xs[i] == init[i];
        }
      }
    }
  }

  /** The experience and package part of a stored booking: the related
      entries are followed whether or not they are still active. */
  function StoredBase(c: Catalog, b: Booking): int
  {
    var exp := if b.experienceId.Some? then FindExperience(c.experiences, b.experienceId.value) else None;
    var pkg := if b.packageId.Some? then FindPackage(c.packages, b.packageId.value) else None;
    (if exp.Some? then exp.value.price * b.guests else 0) + (if pkg.Some? then pkg.value.price else 0)
  }

  /** The re-pricing loops of `update_cart_item` for a booking whose guest
      count is already updated: the stored room prices are reused, the new
      extras are priced with the current guest count. */
  method Reprice(c: Catalog, b: Booking, xs: seq<ExtraRequest>) returns (total: int, extras: seq<BookingExtra>)
    ensures extras == KeptExtras(c, xs, b.guests)
    ensures total == StoredBase(c, b) + Sum(b.rooms, RoomPrice) + Sum(extras, ExtraLinePrice)
  {
    total := StoredBase(c, b);
    var i := 0;
    while i < |b.rooms|
      invariant 0 <= i <= |b.rooms|
      invariant total == StoredBase(c, b) + Sum(b.rooms[..i], RoomPrice)
    {
      assert b.rooms[..i + 1] == b.rooms[..i] + [b.rooms[i]];
      SumAppend(b.rooms[..i], [b.rooms[i]], RoomPrice);
      assert [b.rooms[i]][..0] == [];
      total := total + b.rooms[i].price;
      i := i + 1;
    }
    assert b.rooms[..i] == b.rooms;
    extras := [];
    var j := 0;
    while j < |xs|
      invariant 0 <= j <= |xs|
      invariant extras == KeptExtras(c, xs[..j], b.guests)
      invariant total == StoredBase(c, b) + Sum(b.rooms, RoomPrice) + Sum(extras, ExtraLinePrice)
    {
      assert xs[..j + 1][..j] == xs[..j];
      var extra := FindExtra(c.extras, xs[j].extraId);
      if extra.Some? && extra.value.isActive {
        var q := Quantity(xs[j]);
        var line := BookingExtra(xs[j].extraId, q, ExtraPrice(extra.value, b.guests, q));
        SumAppend(extras, [line], ExtraLinePrice);
        assert [line][..0] == [];
        total := total + line.price;
        extras := extras + [line];
      }
      j := j + 1;
    }
    assert xs[..j] == xs;
  }
}
