/** The quote endpoints (`quotes.py`): an append-only module-level list of
    quotes, listed whole or by customer. */
module QuotesApi {
  import opened Common

  /** A requested item; money in cents, absent keys `None`. */
  datatype QuoteItem = QuoteItem(price: Option<int>, quantity: Option<int>)

  datatype Quote = Quote(
    id: int, customerId: int, businessId: int, items: seq<QuoteItem>,
    status: string, totalPrice: int, createdAt: int)

  datatype Error = Incomplete | UnparseableUserId

  /** An unparseable `user_id` raises `ValueError` outside any handler: a 500.
      The conversion runs per quote, so an empty table never raises it. */
  function StatusCode(e: Error): int
  {
    if e.UnparseableUserId? then 500 else 400
  }

  /** The query's `user_id`: absent or empty, a string `int()` accepts, or
      one it rejects. */
  datatype UserParam = NoUserId | UserId(id: int) | NotAnInt

  function ItemPrice(item: QuoteItem): int
  {
    (if item.price.Some? then item.price.value else 0)
    * (if item.quantity.Some? then item.quantity.value else 1)
  }

  function OfCustomer(customerId: int): Quote -> bool
  {
    (q: Quote) => q.customerId == customerId
  }

  /** `get_quotes`: the query's `user_id` is a string, so only an absent or
      empty one lists everything; `"0"` is truthy and selects customer 0. A
      string `int()` rejects fails the request only once the comprehension
      converts it, that is, when there is at least one quote. */
  function ListQuotes(quotes: seq<Quote>, userId: UserParam): (r: Result<seq<Quote>, Error>)
    ensures userId.NoUserId? ==> r == Ok(quotes)
    ensures r == Err(UnparseableUserId) <==> userId.NotAnInt? && quotes != []
    ensures userId.NotAnInt? && quotes == [] ==> r == Ok([])
    ensures userId.UserId? ==> r.Ok? && forall q :: q in r.value <==> q in quotes && q.customerId == userId.id
  {
    match userId
    case NoUserId => Ok(quotes)
    case UserId(id) => Ok(Filter(quotes, OfCustomer(id)))
    case NotAnInt => if quotes == [] then Ok([]) else Err(UnparseableUserId)
  }

  /** The listing keeps insertion order. */
  lemma ListInOrder(quotes: seq<Quote>, userId: UserParam)
    ensures ListQuotes(quotes, userId).Ok? ==> Embeds(ListQuotes(quotes, userId).value, quotes)
  {
    if userId.UserId? {
      FilterEmbeds(quotes, OfCustomer(userId.id));
    } else {
      EmbedsSelf(quotes);
    }
  }

  lemma {:induction false} EmbedsSelf(s: seq<Quote>)
    ensures Embeds(s, s)
  {
    if s != [] {
      EmbedsSelf(s[..|s| - 1]);
    }
  }

  /** Quote ids run 1, 2, 3, ... in table order. */
  ghost predicate Numbered(quotes: seq<Quote>)
  {
    forall i :: 0 <= i < |quotes| ==> quotes[i].id == i + 1
  }

  /** The module-level `quotes_db`. */
  class QuoteTable {
    var quotes: seq<Quote>

    ghost predicate Valid()
      reads this
    {
      Numbered(quotes)
    }

    constructor ()
      ensures Valid() && quotes == []
    {
      quotes := [];
    }

    /** `create_quote`: a falsy `customer_id` (absent or 0) or `items`
        (absent or empty) is refused; otherwise exactly one quote is
        appended, numbered after the last, with status `"pending"`. */
    method CreateQuote(customerId: Option<int>, businessId: Option<int>,
                       items: Option<seq<QuoteItem>>, now: int)
      returns (r: Result<Quote, Error>)
      requires Valid()
      modifies this
      ensures Valid()
      ensures customerId.None? || customerId.value == 0 || items.None? || items.value == [] ==>
        r == Err(Incomplete) && quotes == old(quotes)
      ensures r.Ok? ==> quotes == old(quotes) + [r.value]
      ensures !(customerId.None? || customerId.value == 0 || items.None? || items.value == []) ==>
        r == Ok(Quote(|old(quotes)| + 1, customerId.value,
                      if businessId.Some? then businessId.value else 1,
                      items.value, "pending", Sum(items.value, ItemPrice), now))
    {
      if customerId.None? || customerId.value == 0 || items.None? || items.value == [] {
        return Err(Incomplete);
      }
      var q := Quote(|quotes| + 1, customerId.value,
                     if businessId.Some? then businessId.value else 1,
                     items.value, "pending", Sum(items.value, ItemPrice), now);
      quotes := quotes + [q];
      r := Ok(q);
    }
  }

  /** A new quote's id is fresh: no quote already in a numbered table has it. */
  lemma NewIdFresh(quotes: seq<Quote>)
    requires Numbered(quotes)
    ensures forall q :: q in quotes ==> q.id != |quotes| + 1
  {
    forall q | q in quotes ensures q.id != |quotes| + 1 {
      var i :| 0 <= i < |quotes| && quotes[i] == q;
    }
  }
}
