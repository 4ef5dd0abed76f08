/** The availability searches of `routes.py`: the dates on which an active
    experience has room for a party, and the active rooms free on every night
    of a stay. Bookings that hold places are the confirmed and pending ones. */
module BookingAvailability {
  import opened Common
  import opened BookingModel

  datatype DateOffer = DateOffer(date: int, spots: int)

  datatype ExperienceOffer = ExperienceOffer(experience: Experience, dates: seq<DateOffer>)

  datatype RoomOffer = RoomOffer(room: Room, nights: int, totalPrice: int)

  /** `BadParameters`: a date missing or not in `%Y-%m-%d` form, or a party
      size `int()` cannot parse. */
  datatype Error = BadParameters | StayNotAfterCheckIn

  /** A request field read with `int()`: absent, a number, or text that does
      not parse. */
  datatype IntParam = Absent | Given(value: int) | Malformed

  function StatusCode(e: Error): int { 400 }

  /** The places left for an experience on a date. */
  function SpotsLeft(bookings: seq<Booking>, e: Experience, d: int): int
  {
    e.maxCapacity - BookedSpots(bookings, e.id, d, None)
  }

  /** A date is offered when it falls on a scheduled weekday and enough
      places are left for the party. */
  predicate Open(bookings: seq<Booking>, e: Experience, d: int, guests: int)
  {
    Weekday(d) in e.scheduleDays && SpotsLeft(bookings, e, d) >= guests
  }

  /** The offered dates from `start` to `end` inclusive, in date order. */
  function OpenDates(bookings: seq<Booking>, e: Experience, start: int, end: int, guests: int): (r: seq<DateOffer>)
    ensures |r| <= if end < start then 0 else end - start + 1
    ensures forall i :: 0 <= i < |r| ==> start <= r[i].date <= end
    decreases if end < start then 0 else end - start + 1
  {
    if end < start then []
    else
      OpenDates(bookings, e, start, end - 1, guests)
      + (if Open(bookings, e, end, guests) then [DateOffer(end, SpotsLeft(bookings, e, end))] else [])
  }

  /** One more day of the range adds that day's offer, if it has one. */
  lemma OpenDatesStep(bookings: seq<Booking>, e: Experience, start: int, d: int, guests: int)
    requires start <= d
    ensures OpenDates(bookings, e, start, d, guests)
      == OpenDates(bookings, e, start, d - 1, guests)
         + (if Open(bookings, e, d, guests) then [DateOffer(d, SpotsLeft(bookings, e, d))] else [])
  {
  }

  /** Exactly the open dates in the range are offered, each with the
      places left on it, in increasing date order. */
  lemma {:induction false} OpenDatesExact(bookings: seq<Booking>, e: Experience, start: int, end: int, guests: int)
    ensures forall o :: o in OpenDates(bookings, e, start, end, guests) <==>
      start <= o.date <= end && Open(bookings, e, o.date, guests) && o.spots == SpotsLeft(bookings, e, o.date)
    ensures forall i, j :: 0 <= i < j < |OpenDates(bookings, e, start, end, guests)| ==>
      OpenDates(bookings, e, start, end, guests)[i].date < OpenDates(bookings, e, start, end, guests)[j].date
  {
    OpenDatesMembers(bookings, e, start, end, guests);
    OpenDatesSorted(bookings, e, start, end, guests);
  }

  lemma {:induction false} OpenDatesMembers(bookings: seq<Booking>, e: Experience, start: int, end: int, guests: int)
    ensures forall o :: o in OpenDates(bookings, e, start, end, guests) <==>
      start <= o.date <= end && Open(bookings, e, o.date, guests) && o.spots == SpotsLeft(bookings, e, o.date)
    decreases if end < start then 0 else end - start + 1
  {
    if start <= end {
      OpenDatesMembers(bookings, e, start, end - 1, guests);
      var prev := OpenDates(bookings, e, start, end - 1, guests);
      var tail := if Open(bookings, e, end, guests) then [DateOffer(end, SpotsLeft(bookings, e, end))] else [];
      var s := OpenDates(bookings, e, start, end, guests);
      OpenDatesStep(bookings, e, start, end, guests);
      assert s == prev + tail;
      forall o
        ensures o in s <==> start <= o.date <= end && Open(bookings, e, o.date, guests) && o.spots == SpotsLeft(bookings, e, o.date)
      {
        assert o in s <==> o in prev || o in tail;
      }
    }
  }

  lemma {:induction false} OpenDatesSorted(bookings: seq<Booking>, e: Experience, start: int, end: int, guests: int)
    ensures forall i, j :: 0 <= i < j < |OpenDates(bookings, e, start, end, guests)| ==>
      OpenDates(bookings, e, start, end, guests)[i].date < OpenDates(bookings, e, start, end, guests)[j].date
    decreases if end < start then 0 else end - start + 1
  {
    if start <= end {
      var prev := OpenDates(bookings, e, start, end - 1, guests);
      var s := OpenDates(bookings, e, start, end, guests);
      OpenDatesSorted(bookings, e, start, end - 1, guests);
      OpenDatesMembers(bookings, e, start, end - 1, guests);
      var tail := if Open(bookings, e, end, guests) then [DateOffer(end, SpotsLeft(bookings, e, end))] else [];
      assert s == prev + tail;
      forall i, j | 0 <= i < j < |s| ensures s[i].date < s[j].date {
        if j >= |prev| {
          assert j == |prev| && s[j].date == end;
          assert s[i] == prev[i] && prev[i] in prev;
          assert prev[i].date <= end - 1;
        } else {
          assert s[i] == prev[i] && s[j] == prev[j];
          assert prev[i].date < prev[j].date;
        }
      }
    }
  }

  /** The experiences offered: active ones with at least one open date, in
      catalogue order. */
  function ExperienceOffers(bookings: seq<Booking>, exps: seq<Experience>, start: int, end: int, guests: int): seq<ExperienceOffer>
  {
    if exps == [] then []
    else
      var e := exps[|exps| - 1];
      var dates := OpenDates(bookings, e, start, end, guests);
      ExperienceOffers(bookings, exps[..|exps| - 1], start, end, guests)
        + (if e.isActive && dates != [] then [ExperienceOffer(e, dates)] else [])
  }

  /** An experience is offered exactly when it is active and has an open
      date, and it is offered with all its open dates. */
  lemma {:induction false} ExperienceOffersExact(bookings: seq<Booking>, exps: seq<Experience>, start: int, end: int, guests: int)
    ensures forall o :: o in ExperienceOffers(bookings, exps, start, end, guests) <==>
      o.experience in exps && o.experience.isActive && o.dates != []
      && o.dates == OpenDates(bookings, o.experience, start, end, guests)
  {
    if exps != [] {
      ExperienceOffersExact(bookings, exps[..|exps| - 1], start, end, guests);
      assert exps == exps[..|exps| - 1] + [exps[|exps| - 1]];
    }
  }

  /** `get_available_experiences`: a missing or unparseable date or party
      size is a 400; otherwise, for each active experience, walk the days
      from `start` to `end` and keep those on a scheduled weekday with enough
      places left for `guests` (1 when not given). A date is `None` when the
      field is missing or does not parse. */
  method AvailableExperiences(c: Catalog, bookings: seq<Booking>, start: Option<int>, end: Option<int>, guests: IntParam)
    returns (r: Result<seq<ExperienceOffer>, Error>)
    ensures start.None? || end.None? || guests.Malformed? <==> r == Err(BadParameters)
    ensures r.Ok? ==>
      r.value == ExperienceOffers(bookings, c.experiences, start.value, end.value, if guests.Given? then guests.value else 1)
  {
    if start.None? || end.None? || guests.Malformed? {
      return Err(BadParameters);
    }
    var offers := ExperienceLoop(c.experiences, bookings, start.value, end.value, if guests.Given? then guests.value else 1);
    r := Ok(offers);
  }

  /** The experience loop of `get_available_experiences`. */
  method ExperienceLoop(exps: seq<Experience>, bookings: seq<Booking>, start: int, end: int, g: int)
    returns (offers: seq<ExperienceOffer>)
    ensures offers == ExperienceOffers(bookings, exps, start, end, g)
  {
    offers := [];
    var i := 0;
    while i < |exps|
      invariant 0 <= i <= |exps|
      invariant offers == ExperienceOffers(bookings, exps[..i], start, end, g)
    {
      assert exps[..i + 1][..i] == exps[..i];
      var e := exps[i];
      if e.isActive {
        var dates := DatesFor(bookings, e, start, end, g);
        if dates != [] {
          offers := offers + [ExperienceOffer(e, dates)];
        }
      }
      i := i + 1;
    }
    assert exps[..i] == exps;
  }

  /** The day loop of `get_available_experiences` for one experience. */
  method DatesFor(bookings: seq<Booking>, e: Experience, start: int, end: int, g: int) returns (dates: seq<DateOffer>)
    ensures dates == OpenDates(bookings, e, start, end, g)
  {
    dates := [];
    var d := start;
    while d <= end
      invariant start <= d && (start <= end ==> d <= end + 1) && (end < start ==> d == start)
      invariant dates == OpenDates(bookings, e, start, d - 1, g)
      decreases end - d + 1
    {
      OpenDatesStep(bookings, e, start, d, g);
      ghost var next := OpenDates(bookings, e, start, d, g);
      if Weekday(d) in e.scheduleDays {
        var spots := e.maxCapacity - BookedSpots(bookings, e.id, d, None);
        if spots >= g {
          dates := dates + [DateOffer(d, spots)];
        }
      }
      assert dates == next;
      d := d + 1;
    }
    assert start <= end ==> d - 1 == end;
  }

  /** Night `d` of a room is free: no holding booking has it and it is not
      blocked by hand. */
  predicate FreeNight(bookings: seq<Booking>, blocks: set<(int, int)>, roomId: int, d: int)
  {
    !Occupied(bookings, roomId, d, None) && (roomId, d) !in blocks
  }

  predicate FreeStay(bookings: seq<Booking>, blocks: set<(int, int)>, roomId: int, checkIn: int, checkOut: int)
  {
    forall d :: checkIn <= d < checkOut ==> FreeNight(bookings, blocks, roomId, d)
  }

  /** The rooms offered for a stay: active ones free on every night, in
      catalogue order, each priced for the whole stay. */
  function RoomOffers(bookings: seq<Booking>, blocks: set<(int, int)>, rooms: seq<Room>, checkIn: int, checkOut: int): (r: seq<RoomOffer>)
    ensures |r| <= |rooms|
    ensures forall i :: 0 <= i < |r| ==> r[i].room in rooms && r[i].room.isActive && r[i].nights == checkOut - checkIn
  {
    if rooms == [] then []
    else
      var r := rooms[|rooms| - 1];
      var nights := checkOut - checkIn;
      RoomOffers(bookings, blocks, rooms[..|rooms| - 1], checkIn, checkOut)
        + (if r.isActive && FreeStay(bookings, blocks, r.id, checkIn, checkOut)
           then [RoomOffer(r, nights, r.pricePerNight * nights)] else [])
  }

  /** A room is offered exactly when it is active and free on every night of
      the stay; the offer charges its nightly price for every night. */
  lemma {:induction false} RoomOffersExact(bookings: seq<Booking>, blocks: set<(int, int)>, rooms: seq<Room>, checkIn: int, checkOut: int)
    ensures forall o :: o in RoomOffers(bookings, blocks, rooms, checkIn, checkOut) <==>
      o.room in rooms && o.room.isActive && FreeStay(bookings, blocks, o.room.id, checkIn, checkOut)
      && o.nights == checkOut - checkIn && o.totalPrice == o.room.pricePerNight * (checkOut - checkIn)
  {
    if rooms != [] {
      RoomOffersExact(bookings, blocks, rooms[..|rooms| - 1], checkIn, checkOut);
      assert rooms == rooms[..|rooms| - 1] + [rooms[|rooms| - 1]];
    }
  }

  /** A confirmed or pending booking of a room makes it unavailable for any
      stay that shares a night with it. */
  lemma HeldRoomNotOffered(bookings: seq<Booking>, blocks: set<(int, int)>, rooms: seq<Room>,
                           checkIn: int, checkOut: int, i: int, j: int, d: int)
    requires 0 <= i < |bookings| && 0 <= j < |bookings[i].rooms| && Holds(bookings[i])
    requires bookings[i].rooms[j].checkIn <= d < bookings[i].rooms[j].checkOut && checkIn <= d < checkOut
    ensures forall o :: o in RoomOffers(bookings, blocks, rooms, checkIn, checkOut) ==> o.room.id != bookings[i].rooms[j].roomId
  {
    var id := bookings[i].rooms[j].roomId;
    assert Occupied(bookings, id, d, None);
    assert !FreeNight(bookings, blocks, id, d);
    RoomOffersExact(bookings, blocks, rooms, checkIn, checkOut);
  }

  /** The night loop of `get_available_rooms` for one room: it stops at the
      first night that is taken or blocked. */
  method NightsFree(bookings: seq<Booking>, blocks: set<(int, int)>, roomId: int, checkIn: int, checkOut: int)
    returns (available: bool)
    requires checkIn <= checkOut
    ensures available == FreeStay(bookings, blocks, roomId, checkIn, checkOut)
  {
    available := true;
    var d := checkIn;
    while d < checkOut
      invariant checkIn <= d <= checkOut
      invariant available ==> FreeStay(bookings, blocks, roomId, checkIn, d)
      invariant !available ==> !FreeStay(bookings, blocks, roomId, checkIn, checkOut)
      decreases if available then checkOut - d + 1 else 0
    {
      if !FreeNight(bookings, blocks, roomId, d) {
        available := false;
        break;
      }
      d := d + 1;
    }
  }

  /** `get_available_rooms`: a missing or unparseable date (`None`) is a
      400, and so is a stay that does not end after it starts; otherwise walks the nights of each active room and stops at the
      first taken or blocked one. */
  method AvailableRooms(c: Catalog, bookings: seq<Booking>, blocks: set<(int, int)>, checkInParam: Option<int>, checkOutParam: Option<int>)
    returns (r: Result<seq<RoomOffer>, Error>)
    ensures checkInParam.None? || checkOutParam.None? <==> r == Err(BadParameters)
    ensures checkInParam.Some? && checkOutParam.Some? ==>
      (checkInParam.value >= checkOutParam.value <==> r == Err(StayNotAfterCheckIn))
    ensures r.Ok? ==> r.value == RoomOffers(bookings, blocks, c.rooms, checkInParam.value, checkOutParam.value)
  {
    if checkInParam.None? || checkOutParam.None? {
      return Err(BadParameters);
    }
    var checkIn, checkOut := checkInParam.value, checkOutParam.value;
    if checkIn >= checkOut {
      return Err(StayNotAfterCheckIn);
    }
    var rooms := c.rooms;
    var offers: seq<RoomOffer> := [];
    var i := 0;
    while i < |rooms|
      invariant 0 <= i <= |rooms|
      invariant offers == RoomOffers(bookings, blocks, rooms[..i], checkIn, checkOut)
    {
      assert rooms[..i + 1][..i] == rooms[..i];
      var room := rooms[i];
      if room.isActive {
        var available := NightsFree(bookings, blocks, room.id, checkIn, checkOut);
        if available {
          var nights := checkOut - checkIn;
          offers := offers + [RoomOffer(room, nights, room.pricePerNight * nights)];
        }
      }
      i := i + 1;
    }
    assert rooms[..i] == rooms;
    r := Ok(offers);
  }
}
