/**
 * The managed backend as the storefront's components use it: the `bookings`,
 * `favorites` and `reviews` tables and the calls made on them. The backend
 * itself is not modelled; whether a call succeeds is an input (`Outcome`), a
 * failed call changes no table, and every call issued is recorded in `requests`
 * so that contracts can say exactly which calls a handler made.
 */
module Remote {
  import opened Wrappers

  /** How a remote call ends: `{ error: null }` or `{ error }` with its message. */
  datatype Outcome = Succeeds | FailsWith(message: string)

  datatype Result<+T> = Ok(value: T) | Err(message: string)

  /** The columns a client sends when it inserts a booking. */
  datatype NewBooking = NewBooking(
    userId: string,
    packageId: string,
    travelDate: string,
    totalAmount: int,
    status: string,
    paymentStatus: Option<string>,
    paymentMethod: Option<string>,
    paymentReference: Option<string>)

  /** A stored booking row; `id` is assigned by the store when the row is created. */
  datatype Booking = Booking(
    id: nat,
    userId: string,
    packageId: string,
    travelDate: string,
    totalAmount: int,
    status: string,
    paymentStatus: Option<string>,
    paymentMethod: Option<string>,
    paymentReference: Option<string>)

  datatype Favorite = Favorite(userId: string, packageId: string)

  datatype NewReview = NewReview(userId: string, packageId: string, rating: int, comment: string)

  /** One call issued to the backend. */
  datatype Request =
    | InsertBooking(booking: NewBooking)
    | UpdateBookingStatus(id: nat, status: string)
    | SelectBookings
    | InsertFavorite(favorite: Favorite)
    | DeleteFavorites(userId: string, packageId: string)
    | InsertReview(review: NewReview)

  /** The row the store creates for an inserted booking: the store's id, and exactly the columns sent. */
  function Stored(id: nat, b: NewBooking): (r: Booking)
    ensures r.id == id
    ensures NewBooking(r.userId, r.packageId, r.travelDate, r.totalAmount, r.status,
                       r.paymentStatus, r.paymentMethod, r.paymentReference) == b
  {
    Booking(id, b.userId, b.packageId, b.travelDate, b.totalAmount, b.status,
            b.paymentStatus, b.paymentMethod, b.paymentReference)
  }

  predicate UniqueIds(rows: seq<Booking>) {
    forall i, j :: 0 <= i < j < |rows| ==> rows[i].id != rows[j].id
  }

  /**
   * `update({ status }).eq("id", id)`: every row whose id is `id` gets the new
   * status, and every other row is left exactly as it was. Any status string is
   * accepted, whatever the row's current status.
   */
  function SetStatus(rows: seq<Booking>, id: nat, status: string): (r: seq<Booking>)
    ensures |r| == |rows|
    ensures forall i :: 0 <= i < |rows| ==> r[i].id == rows[i].id
    ensures forall i :: 0 <= i < |rows| && rows[i].id == id ==> r[i] == rows[i].(status := status)
    ensures forall i :: 0 <= i < |rows| && rows[i].id != id ==> r[i] == rows[i]
  {
    if rows == [] then []
    else [if rows[0].id == id then rows[0].(status := status) else rows[0]] + SetStatus(rows[1..], id, status)
  }

  /** An update that names no existing row changes nothing. */
  lemma SetStatusAbsentId(rows: seq<Booking>, id: nat, status: string)
    requires forall i :: 0 <= i < |rows| ==> rows[i].id != id
    ensures SetStatus(rows, id, status) == rows
  {
  }

  /** The rows in `order("created_at", { ascending: false })`; the store creates rows in `created_at` order. */
  function NewestFirst(rows: seq<Booking>): (r: seq<Booking>)
    ensures |r| == |rows|
    ensures forall i :: 0 <= i < |rows| ==> r[i] == rows[|rows| - 1 - i]
  {
    if rows == [] then [] else NewestFirst(rows[1..]) + [rows[0]]
  }

  /** Reordering the rows for display keeps their ids pairwise distinct. */
  lemma NewestFirstUniqueIds(rows: seq<Booking>)
    requires UniqueIds(rows)
    ensures UniqueIds(NewestFirst(rows))
  {
    var r := NewestFirst(rows);
    forall i, j | 0 <= i < j < |r| ensures r[i].id != r[j].id {
      assert r[i] == rows[|rows| - 1 - i] && r[j] == rows[|rows| - 1 - j];
    }
  }

  /** `delete().eq("user_id", userId).eq("package_id", packageId)` on the favourites table. */
  function WithoutFavorites(fs: seq<Favorite>, userId: string, packageId: string): (r: seq<Favorite>)
    ensures |r| <= |fs|
    ensures forall f :: f in r <==> f in fs && f != Favorite(userId, packageId)
    ensures forall f :: multiset(r)[f] == if f == Favorite(userId, packageId) then 0 else multiset(fs)[f]
  {
    if fs == [] then []
    else
      assert fs == [fs[0]] + fs[1..];
      (if fs[0] == Favorite(userId, packageId) then [] else [fs[0]]) + WithoutFavorites(fs[1..], userId, packageId)
  }

  /** The backend's tables, and the log of the calls made on them. */
  class RemoteStore {
    var bookings: seq<Booking>
    var nextId: nat
    var favorites: seq<Favorite>
    var reviews: seq<NewReview>
    var requests: seq<Request>

    /** Booking ids are distinct and below the next id to hand out. */
    ghost predicate Valid()
      reads this
    {
      UniqueIds(bookings) && forall i :: 0 <= i < |bookings| ==> bookings[i].id < nextId
    }

    constructor ()
      ensures Valid()
      ensures bookings == [] && nextId == 0 && favorites == [] && reviews == [] && requests == []
    {
      bookings, nextId, favorites, reviews, requests := [], 0, [], [], [];
    }

    /** `from("bookings").insert([b])`. */
    method InsertBooking(b: NewBooking, outcome: Outcome)
      requires Valid()
      modifies this
      ensures Valid()
      ensures requests == old(requests) + [Request.InsertBooking(b)]
      ensures bookings == if outcome.Succeeds? then old(bookings) + [Stored(old(nextId), b)] else old(bookings)
      ensures nextId == if outcome.Succeeds? then old(nextId) + 1 else old(nextId)
      ensures favorites == old(favorites) && reviews == old(reviews)
    {
      requests := requests + [Request.InsertBooking(b)];
      if outcome.Succeeds? {
        bookings := bookings + [Stored(nextId, b)];
        nextId := nextId + 1;
      }
    }

    /** `from("bookings").update({ status }).eq("id", id)`. */
    method UpdateBookingStatus(id: nat, status: string, outcome: Outcome)
      requires Valid()
      modifies this
      ensures Valid()
      ensures requests == old(requests) + [Request.UpdateBookingStatus(id, status)]
      ensures bookings == if outcome.Succeeds? then SetStatus(old(bookings), id, status) else old(bookings)
      ensures favorites == old(favorites) && reviews == old(reviews) && nextId == old(nextId)
    {
      requests := requests + [Request.UpdateBookingStatus(id, status)];
      if outcome.Succeeds? {
        bookings := SetStatus(bookings, id, status);
      }
    }

    /** `from("bookings").select(...).order("created_at", { ascending: false })`. */
    method SelectBookings(outcome: Outcome) returns (r: Result<seq<Booking>>)
      requires Valid()
      modifies this
      ensures Valid()
      ensures requests == old(requests) + [Request.SelectBookings]
      ensures r == if outcome.Succeeds? then Ok(NewestFirst(bookings)) else Err(outcome.message)
      ensures bookings == old(bookings) && favorites == old(favorites) && reviews == old(reviews) && nextId == old(nextId)
    {
      requests := requests + [Request.SelectBookings];
      r := if outcome.Succeeds? then Ok(NewestFirst(bookings)) else Err(outcome.message);
    }

    /** `from("favorites").insert([f])`. */
    method InsertFavorite(f: Favorite, outcome: Outcome)
      requires Valid()
      modifies this
      ensures Valid()
      ensures requests == old(requests) + [Request.InsertFavorite(f)]
      ensures favorites == if outcome.Succeeds? then old(favorites) + [f] else old(favorites)
      ensures bookings == old(bookings) && reviews == old(reviews) && nextId == old(nextId)
    {
      requests := requests + [Request.InsertFavorite(f)];
      if outcome.Succeeds? {
        favorites := favorites + [f];
      }
    }

    /** `from("favorites").delete().eq("user_id", userId).eq("package_id", packageId)`. */
    method DeleteFavorites(userId: string, packageId: string, outcome: Outcome)
      requires Valid()
      modifies this
      ensures Valid()
      ensures requests == old(requests) + [Request.DeleteFavorites(userId, packageId)]
      ensures favorites == if outcome.Succeeds? then WithoutFavorites(old(favorites), userId, packageId) else old(favorites)
      ensures bookings == old(bookings) && reviews == old(reviews) && nextId == old(nextId)
    {
      requests := requests + [Request.DeleteFavorites(userId, packageId)];
      if outcome.Succeeds? {
        favorites := WithoutFavorites(favorites, userId, packageId);
      }
    }

    /** `from("reviews").insert([r])`. */
    method InsertReview(r: NewReview, outcome: Outcome)
      requires Valid()
      modifies this
      ensures Valid()
      ensures requests == old(requests) + [Request.InsertReview(r)]
      ensures reviews == if outcome.Succeeds? then old(reviews) + [r] else old(reviews)
      ensures bookings == old(bookings) && favorites == old(favorites) && nextId == old(nextId)
    {
      requests := requests + [Request.InsertReview(r)];
      if outcome.Succeeds? {
        reviews := reviews + [r];
      }
    }
  }
}
