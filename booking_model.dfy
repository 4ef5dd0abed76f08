/** The booking data of the hotel backend (`routes.py`): catalogue entries,
    bookings with their rooms and extras, and the queries the endpoints run
    against the booking table. Money is in cents, dates are day numbers. */
module BookingModel {
  import opened Common

  datatype BookingStatus = Cart | Pending | Confirmed | OtherStatus(name: string)

  datatype PaymentStatus = PaymentPending | Processing | Succeeded | Failed | OtherPayment(name: string)

  /** `PER_BOOKING` extras are charged once; every other type scales. */
  datatype ExtraType = PerBooking | OtherType(name: string)

  datatype Experience = Experience(id: int, name: string, price: int, maxCapacity: int,
                                   isActive: bool, scheduleDays: seq<int>)

  datatype Room = Room(id: int, name: string, pricePerNight: int, isActive: bool)

  datatype Extra = Extra(id: int, name: string, price: int, kind: ExtraType, isActive: bool)

  datatype Package = Package(id: int, name: string, price: int, isActive: bool)

  /** The active-or-not catalogue the endpoints look entries up in. */
  datatype Catalog = Catalog(experiences: seq<Experience>, rooms: seq<Room>,
                             extras: seq<Extra>, packages: seq<Package>)

  datatype BookingRoom = BookingRoom(roomId: int, checkIn: int, checkOut: int, nights: int, price: int)

  datatype BookingExtra = BookingExtra(extraId: int, quantity: int, price: int)

  datatype Booking = Booking(
    id: int, userId: int,
    experienceId: Option<int>, packageId: Option<int>, experienceDate: Option<int>,
    checkIn: Option<int>, checkOut: Option<int>, guests: int,
    status: BookingStatus, paymentStatus: PaymentStatus, totalPrice: int,
    rooms: seq<BookingRoom>, extras: seq<BookingExtra>,
    specialRequests: Option<string>, intentId: Option<string>,
    stripeStatus: Option<string>, cartExpiresAt: Option<int>)

  /** A JSON id is used only when truthy: present and not 0. */
  predicate Present(id: Option<int>)
  {
    id.Some? && id.value != 0
  }

  /** A booking that holds its rooms and places: confirmed or pending. */
  predicate Holds(b: Booking)
  {
    b.status == Confirmed || b.status == Pending
  }

  function FindExperience(s: seq<Experience>, id: int): (r: Option<Experience>)
    ensures r.Some? ==> r.value in s && r.value.id == id
    ensures r.None? ==> forall i :: 0 <= i < |s| ==> s[i].id != id
  {
    if s == [] then None else if s[0].id == id then Some(s[0]) else FindExperience(s[1..], id)
  }

  function FindRoom(s: seq<Room>, id: int): (r: Option<Room>)
    ensures r.Some? ==> r.value in s && r.value.id == id
    ensures r.None? ==> forall i :: 0 <= i < |s| ==> s[i].id != id
  {
    if s == [] then None else if s[0].id == id then Some(s[0]) else FindRoom(s[1..], id)
  }

  function FindExtra(s: seq<Extra>, id: int): (r: Option<Extra>)
    ensures r.Some? ==> r.value in s && r.value.id == id
    ensures r.None? ==> forall i :: 0 <= i < |s| ==> s[i].id != id
  {
    if s == [] then None else if s[0].id == id then Some(s[0]) else FindExtra(s[1..], id)
  }

  function FindPackage(s: seq<Package>, id: int): (r: Option<Package>)
    ensures r.Some? ==> r.value in s && r.value.id == id
    ensures r.None? ==> forall i :: 0 <= i < |s| ==> s[i].id != id
  {
    if s == [] then None else if s[0].id == id then Some(s[0]) else FindPackage(s[1..], id)
  }

  /** The night `d` of room `roomId` is taken by a holding booking other
      than `exclude` (the `BookingRoom` join query). */
  predicate Occupied(bookings: seq<Booking>, roomId: int, d: int, exclude: Option<int>)
  {
    exists i, j :: 0 <= i < |bookings| && 0 <= j < |bookings[i].rooms|
      && Holds(bookings[i]) && (exclude.None? || bookings[i].id != exclude.value)
      && bookings[i].rooms[j].roomId == roomId
      && bookings[i].rooms[j].checkIn <= d < bookings[i].rooms[j].checkOut
  }

  /** Holding bookings of one experience on one date, other than `exclude`. */
  function SameSlot(experienceId: int, d: int, exclude: Option<int>): Booking -> bool
  {
    (b: Booking) => Holds(b) && b.experienceId == Some(experienceId) && b.experienceDate == Some(d)
      && (exclude.None? || b.id != exclude.value)
  }

  function Guests(b: Booking): int { b.guests }

  /** The places already taken on a date: the guests of those bookings. */
  function BookedSpots(bookings: seq<Booking>, experienceId: int, d: int, exclude: Option<int>): int
  {
    Sum(Filter(bookings, SameSlot(experienceId, d, exclude)), Guests)
  }

  function RoomPrice(r: BookingRoom): int { r.price }

  function ExtraLinePrice(e: BookingExtra): int { e.price }

  function TotalPrice(b: Booking): int { b.totalPrice }

  /** The day of the week of a day number; day 0 is a Monday. */
  function Weekday(d: int): (w: int)
    ensures 0 <= w < 7
  {
    d % 7
  }

  /** Walking day by day, as the availability search does, visits the
      weekdays in order and comes back to the same one a week later. */
  lemma NextDayNextWeekday(d: int)
    ensures Weekday(d + 1) == if Weekday(d) == 6 then 0 else Weekday(d) + 1
    ensures Weekday(d + 7) == Weekday(d)
  {
  }
}
