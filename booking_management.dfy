/**
 * The operator's booking list: the rows fetched from the store, the loading
 * flag, the one booking being updated, the pending count in the header, and
 * the status update behind the Accept and Reject buttons.
 */
module BookingManagement {
  import opened Wrappers
  import opened Remote
  import BookingCustomerActions

  /** The toasts the view shows. */
  datatype Notice = FetchFailed(message: string) | BookingUpdated(status: string) | UpdateFailed(message: string)

  /** `bookings.filter((b) => b.status === "pending")`, in list order. */
  function PendingBookings(bs: seq<Booking>): (r: seq<Booking>)
    ensures |r| <= |bs|
    ensures forall b :: b in r <==> b in bs && b.status == "pending"
  {
    if bs == [] then []
    else (if bs[0].status == "pending" then [bs[0]] else []) + PendingBookings(bs[1..])
  }

  /** `pendingBookingsCount`. */
  function PendingCount(bs: seq<Booking>): (n: nat)
    ensures n <= |bs|
  {
    |PendingBookings(bs)|
  }

  /** The filter keeps every pending booking as many times as the list holds it, and no other booking. */
  lemma {:induction false} PendingBookingsMultiplicity(bs: seq<Booking>)
    ensures forall b :: multiset(PendingBookings(bs))[b] == if b.status == "pending" then multiset(bs)[b] else 0
  {
    if bs != [] {
      assert bs == [bs[0]] + bs[1..];
      PendingBookingsMultiplicity(bs[1..]);
    }
  }

  /** The positions of the list whose booking has status exactly "pending". */
  ghost function PendingPositions(bs: seq<Booking>): set<int> {
    set i | 0 <= i < |bs| && bs[i].status == "pending"
  }

  /** Appending one booking adds its position exactly when it is pending. */
  lemma PendingPositionsSnoc(init: seq<Booking>, last: Booking)
    ensures |init| !in PendingPositions(init)
    ensures PendingPositions(init + [last]) == PendingPositions(init) + (if last.status == "pending" then {|init|} else {})
  {
    var bs := init + [last];
    assert forall i :: 0 <= i < |init| ==> bs[i] == init[i];
  }

  /** `pendingBookingsCount` is the number of positions in the list whose booking has status exactly "pending". */
  lemma {:induction false} PendingCountCountsPositions(bs: seq<Booking>)
    ensures PendingCount(bs) == |PendingPositions(bs)|
  {
    if bs != [] {
      var init := bs[..|bs| - 1];
      var last := bs[|bs| - 1];
      assert bs == init + [last];
      PendingCountCountsPositions(init);
      PendingCountAppend(init, [last]);
      PendingPositionsSnoc(init, last);
    }
  }

  /** The count of a concatenation is the sum of the counts. */
  lemma {:induction false} PendingCountAppend(a: seq<Booking>, b: seq<Booking>)
    ensures PendingBookings(a + b) == PendingBookings(a) + PendingBookings(b)
    ensures PendingCount(a + b) == PendingCount(a) + PendingCount(b)
  {
    if a == [] {
      assert a + b == b;
    } else {
      assert (a + b)[0] == a[0];
      assert (a + b)[1..] == a[1..] + b;
      PendingCountAppend(a[1..], b);
    }
  }

  /** The header's count does not depend on the order the rows are fetched in. */
  lemma {:induction false} PendingCountNewestFirst(rows: seq<Booking>)
    ensures PendingCount(NewestFirst(rows)) == PendingCount(rows)
  {
    if rows != [] {
      PendingCountNewestFirst(rows[1..]);
      PendingCountAppend(NewestFirst(rows[1..]), [rows[0]]);
      assert NewestFirst(rows) == NewestFirst(rows[1..]) + [rows[0]];
    }
  }

  /** Every row pending is the same as the count reaching the list's length. */
  lemma {:induction false} AllPendingIffCountIsLength(bs: seq<Booking>)
    ensures PendingCount(bs) == |bs| <==> forall i :: 0 <= i < |bs| ==> bs[i].status == "pending"
  {
    if bs != [] {
      AllPendingIffCountIsLength(bs[1..]);
      assert forall i :: 1 <= i < |bs| ==> bs[i] == bs[1..][i - 1];
    }
  }

  /**
   * Settling one pending booking (its id unique in the table) with any other
   * status lowers the pending count by exactly one.
   */
  lemma {:induction false} SettlingLowersPendingCount(rows: seq<Booking>, k: nat, status: string)
    requires UniqueIds(rows) && k < |rows|
    requires rows[k].status == "pending" && status != "pending"
    ensures PendingCount(SetStatus(rows, rows[k].id, status)) == PendingCount(rows) - 1
  {
    var id := rows[k].id;
    var r := SetStatus(rows, id, status);
    assert r == [r[0]] + r[1..];
    assert r[1..] == SetStatus(rows[1..], id, status);
    if k == 0 {
      assert forall i :: 0 <= i < |rows[1..]| ==> rows[1..][i].id != id by {
        forall i | 0 <= i < |rows[1..]| ensures rows[1..][i].id != id {
          assert rows[1..][i] == rows[i + 1];
        }
      }
      SetStatusAbsentId(rows[1..], id, status);
    } else {
      assert rows[0].id != id;
      assert rows[1..][k - 1] == rows[k];
      SettlingLowersPendingCount(rows[1..], k - 1, status);
    }
  }

  /** The card whose booking id is `updating` is the one marked as updating. */
  predicate IsUpdating(updating: Option<nat>, id: nat) {
    updating == Some(id)
  }

  /** With distinct booking ids, at most one card of the list is marked as updating. */
  lemma AtMostOneCardUpdating(bs: seq<Booking>, updating: Option<nat>)
    requires UniqueIds(bs)
    ensures forall i, j :: 0 <= i < |bs| && 0 <= j < |bs| && IsUpdating(updating, bs[i].id) && IsUpdating(updating, bs[j].id) ==> i == j
  {
  }

  /**
   * An operator's decision through an enabled button of a pending card moves
   * that booking to `"confirmed"` or `"rejected"`, leaves every other row
   * as it was, and lowers the pending count by one.
   */
  lemma OperatorDecision(rows: seq<Booking>, k: nat, a: BookingCustomerActions.ActionButton)
    requires UniqueIds(rows) && k < |rows|
    requires a in BookingCustomerActions.OfferedActions(rows[k].id, rows[k].status, false)
    ensures rows[k].status == "pending"
    ensures BookingCustomerActions.OperatorTransition(rows[k].status, SetStatus(rows, a.bookingId, a.newStatus)[k].status)
    ensures forall i :: 0 <= i < |rows| && i != k ==> SetStatus(rows, a.bookingId, a.newStatus)[i] == rows[i]
    ensures PendingCount(SetStatus(rows, a.bookingId, a.newStatus)) == PendingCount(rows) - 1
  {
    SettlingLowersPendingCount(rows, k, a.newStatus);
  }

  /** The component's held state over the store it reads and updates. */
  class BookingManagementView {
    const store: RemoteStore
    var bookings: seq<Booking>
    var loading: bool
    var updating: Option<nat>

    /** The listed rows come from the store, so their ids are distinct. */
    ghost predicate Valid()
      reads this, store
    {
      store.Valid() && UniqueIds(bookings)
    }

    constructor (store: RemoteStore)
      requires store.Valid()
      ensures Valid() && this.store == store
      ensures bookings == [] && loading && updating == None
    {
      this.store := store;
      bookings, loading, updating := [], true, None;
    }

    /**
     * `fetchBookings`: on success the list is the store's rows, newest first; on
     * an error the list is kept. Either way `loading` ends false.
     */
    method FetchBookings(outcome: Outcome) returns (notices: seq<Notice>)
      requires Valid()
      modifies this`bookings, this`loading, store
      ensures Valid()
      ensures !loading
      ensures bookings == if outcome.Succeeds? then NewestFirst(store.bookings) else old(bookings)
      ensures store.requests == old(store.requests) + [Request.SelectBookings]
      ensures store.bookings == old(store.bookings) && store.favorites == old(store.favorites) && store.reviews == old(store.reviews)
      ensures store.nextId == old(store.nextId)
      ensures notices == if outcome.Succeeds? then [] else [FetchFailed(outcome.message)]
    {
      var r := store.SelectBookings(outcome);
      if r.Ok? {
        NewestFirstUniqueIds(store.bookings);
        bookings := r.value;
        notices := [];
      } else {
        notices := [FetchFailed(r.message)];
      }
      loading := false;
    }

    /** The update starts: `setUpdating(bookingId)`. */
    method BeginUpdate(bookingId: nat)
      modifies this`updating
      ensures updating == Some(bookingId)
    {
      updating := Some(bookingId);
    }

    /** The update's `finally`: `setUpdating(null)`. */
    method CompleteUpdate()
      modifies this`updating
      ensures updating == None
    {
      updating := None;
    }

    /**
     * `updateBookingStatus(bookingId, status)`: one update call for any status
     * string, with no check of the row's current status. On success the store's
     * rows with that id take the status and the list is fetched again; on failure
     * no fetch is made and the list is kept. `updating` ends null either way.
     */
    method UpdateBookingStatus(bookingId: nat, status: string, updateOutcome: Outcome, fetchOutcome: Outcome)
      returns (notices: seq<Notice>)
      requires Valid()
      modifies this`bookings, this`loading, this`updating, store
      ensures Valid()
      ensures updating == None
      ensures store.bookings == if updateOutcome.Succeeds? then SetStatus(old(store.bookings), bookingId, status) else old(store.bookings)
      ensures store.favorites == old(store.favorites) && store.reviews == old(store.reviews) && store.nextId == old(store.nextId)
      ensures updateOutcome.Succeeds? ==>
        && store.requests == old(store.requests) + [Request.UpdateBookingStatus(bookingId, status), Request.SelectBookings]
        && !loading
        && bookings == (if fetchOutcome.Succeeds? then NewestFirst(store.bookings) else old(bookings))
        && notices == (if fetchOutcome.Succeeds? then [] else [FetchFailed(fetchOutcome.message)]) + [BookingUpdated(status)]
      ensures updateOutcome.FailsWith? ==>
        && store.requests == old(store.requests) + [Request.UpdateBookingStatus(bookingId, status)]
        && bookings == old(bookings) && loading == old(loading)
        && notices == [UpdateFailed(updateOutcome.message)]
    {
      BeginUpdate(bookingId);
      store.UpdateBookingStatus(bookingId, status, updateOutcome);
      if updateOutcome.Succeeds? {
        var fetched := FetchBookings(fetchOutcome);
        notices := fetched + [BookingUpdated(status)];
      } else {
        notices := [UpdateFailed(updateOutcome.message)];
      }
      CompleteUpdate();
    }
  }
}
