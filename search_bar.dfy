/** The stay search form (`SearchBar.jsx`): the dates and the guest counters,
    the buttons that change the counters, and the search it submits. Dates
    are day numbers, `None` for an empty field. */
module SearchBar {
  import opened Common

  datatype SearchData = SearchData(checkIn: Option<int>, checkOut: Option<int>, adults: int, children: int)

  /** The form as first shown: two adults, no children, no dates. */
  const InitialSearch := SearchData(None, None, 2, 0)

  /** The most guests the plus buttons allow. */
  const MaxGuests := 8

  datatype GuestType = Adults | Children

  function Count(s: SearchData, t: GuestType): int
  {
    if t == Adults then s.adults else s.children
  }

  function TotalGuests(s: SearchData): int
  {
    s.adults + s.children
  }

  /** `incrementGuests`: one more of that type, with no bound of its own. */
  function Increment(s: SearchData, t: GuestType): (r: SearchData)
    ensures Count(r, t) == Count(s, t) + 1
    ensures TotalGuests(r) == TotalGuests(s) + 1
    ensures r.checkIn == s.checkIn && r.checkOut == s.checkOut
  {
    if t == Adults then s.(adults := s.adults + 1) else s.(children := s.children + 1)
  }

  /** `decrementGuests`: one fewer of that type, only while it is above zero. */
  function Decrement(s: SearchData, t: GuestType): (r: SearchData)
    ensures Count(s, t) > 0 ==> Count(r, t) == Count(s, t) - 1 && TotalGuests(r) == TotalGuests(s) - 1
    ensures Count(s, t) <= 0 ==> r == s
    ensures Count(s, t) >= 0 ==> Count(r, t) >= 0
    ensures r.checkIn == s.checkIn && r.checkOut == s.checkOut
  {
    if Count(s, t) <= 0 then s
    else if t == Adults then s.(adults := s.adults - 1) else s.(children := s.children - 1)
  }

  datatype Button = Plus(plusType: GuestType) | Minus(minusType: GuestType)

  /** Both plus buttons are disabled at eight guests; the adults' minus at one
      adult, the children's at none. */
  predicate Enabled(s: SearchData, b: Button)
  {
    match b
    case Plus(_) => TotalGuests(s) < MaxGuests
    case Minus(Adults) => s.adults > 1
    case Minus(Children) => s.children > 0
  }

  /** A click: a disabled button does nothing. */
  function Click(s: SearchData, b: Button): SearchData
  {
    if !Enabled(s, b) then s
    else match b
      case Plus(t) => Increment(s, t)
      case Minus(t) => Decrement(s, t)
  }

  /** The counters the buttons keep: at least one adult, no negative
      children, at most eight guests. */
  predicate Bounded(s: SearchData)
  {
    s.adults >= 1 && s.children >= 0 && TotalGuests(s) <= MaxGuests
  }

  /** The form starts within bounds and no click leaves them. */
  lemma ClicksKeepBounds(s: SearchData, b: Button)
    ensures Bounded(InitialSearch)
    ensures Bounded(s) ==> Bounded(Click(s, b))
  {
  }

  /** Any sequence of clicks from the initial form stays within bounds. */
  lemma {:induction false} ClickRunBounded(clicks: seq<Button>)
    ensures Bounded(Run(InitialSearch, clicks))
  {
    if clicks != [] {
      ClickRunBounded(clicks[..|clicks| - 1]);
      ClicksKeepBounds(Run(InitialSearch, clicks[..|clicks| - 1]), clicks[|clicks| - 1]);
    }
  }

  function Run(s: SearchData, clicks: seq<Button>): SearchData
  {
    if clicks == [] then s else Click(Run(s, clicks[..|clicks| - 1]), clicks[|clicks| - 1])
  }

  datatype SearchError = MissingDates | CheckOutNotAfterCheckIn

  datatype Query = Query(checkIn: int, checkOut: int, guests: int)

  /** `handleSearch`: both dates are required and the stay must end after it
      starts; the query asks for adults and children together. */
  function HandleSearch(s: SearchData): (r: Result<Query, SearchError>)
    ensures s.checkIn.None? || s.checkOut.None? <==> r == Err(MissingDates)
    ensures r.Ok? <==> s.checkIn.Some? && s.checkOut.Some? && s.checkIn.value < s.checkOut.value
    ensures r.Ok? ==> r.value == Query(s.checkIn.value, s.checkOut.value, TotalGuests(s))
  {
    if s.checkIn.None? || s.checkOut.None? then Err(MissingDates)
    else if s.checkIn.value >= s.checkOut.value then Err(CheckOutNotAfterCheckIn)
    else Ok(Query(s.checkIn.value, s.checkOut.value, TotalGuests(s)))
  }
}
