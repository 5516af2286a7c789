/**
 * The package page: favourite toggle, the booking dialog with its pay-later and
 * Khalti paths, and the review form, over the store's tables. The page is taken
 * after its initial loads: the package (or its absence) and the favourite check
 * are given to the constructor.
 */
module PackageDetail {
  import opened Wrappers
  import opened Text
  import opened Remote
  import BookingSection
  import ReviewForm

  datatype Package = Package(
    id: string, title: string, location: string, description: string,
    price: int, duration: string, imageUrl: Option<string>)

  /** The toasts the page shows. */
  datatype Notice =
    | Silent
    | SignInRequired
    | RemovedFromFavorites
    | AddedToFavorites
    | FavoriteError(message: string)
    | MissingInformation
    | BookingSuccessful
    | BookingFailed(message: string)
    | PaymentSuccessful
    | ErrorSavingBooking(message: string)
    | PaymentFailed
    | ReviewSubmitted
    | ReviewError(message: string)

  /** `!user || !pkg || !travelDate`, negated: what the pay-later submit checks before inserting. */
  predicate PayLaterGuard(user: Option<string>, pkg: Option<Package>, travelDate: string) {
    user.Some? && pkg.Some? && travelDate != ""
  }

  /** The pay-later insert: a well-formed pending booking for the user, package and date, at the package price. */
  function PayLaterBooking(userId: string, packageId: string, travelDate: string, price: int): (b: NewBooking)
    ensures WellFormedNewBooking(b) && b.status == "pending" && b.paymentReference.None?
    ensures b.userId == userId && b.packageId == packageId && b.travelDate == travelDate && b.totalAmount == price
  {
    NewBooking(userId, packageId, travelDate, price, "pending", None, None, None)
  }

  /** The insert made once Khalti reports success: a well-formed confirmed, paid booking carrying the widget's token. */
  function KhaltiBooking(userId: string, packageId: string, travelDate: string, price: int, token: string): (b: NewBooking)
    ensures WellFormedNewBooking(b) && b.status == "confirmed" && b.paymentReference == Some(token)
    ensures b.paymentStatus == Some("completed") && b.paymentMethod == Some("khalti")
    ensures b.userId == userId && b.packageId == packageId && b.travelDate == travelDate && b.totalAmount == price
  {
    NewBooking(userId, packageId, travelDate, price, "confirmed", Some("completed"), Some("khalti"), Some(token))
  }

  /**
   * The shape both of this page's inserts give a booking: pending with no payment
   * columns, or confirmed and paid with a method and a reference.
   */
  predicate WellFormedNewBooking(b: NewBooking) {
    && (b.status == "pending" || b.status == "confirmed")
    && (b.paymentReference.Some? <==> b.paymentMethod.Some?)
    && (b.status == "confirmed" <==> b.paymentStatus == Some("completed"))
    && (b.status == "pending" ==> b.paymentStatus.None? && b.paymentMethod.None?)
  }

  /**
   * The two paths insert the same user, package, date and amount and differ only
   * in the status and payment columns, so they never coincide.
   */
  lemma BookingPaths(userId: string, packageId: string, travelDate: string, price: int, token: string)
    ensures PayLaterBooking(userId, packageId, travelDate, price) != KhaltiBooking(userId, packageId, travelDate, price, token)
    ensures PayLaterBooking(userId, packageId, travelDate, price).(status := "confirmed", paymentStatus := Some("completed"),
              paymentMethod := Some("khalti"), paymentReference := Some(token))
            == KhaltiBooking(userId, packageId, travelDate, price, token)
  {
  }

  /** `pkg.price * 100`: the widget's amount in minor units, from which the price is recovered. */
  function WidgetAmount(price: int): (amount: int)
    ensures amount % 100 == 0 && amount / 100 == price
  {
    price * 100
  }

  const KhaltiPublicKey: string := "test_public_key_dc74e0fd57cb46cd93832aee0a507256"
  const KhaltiPreferences: seq<string> := ["KHALTI", "EBANKING", "MOBILE_BANKING", "CONNECT_IPS", "SCT"]

  /** The `new KhaltiCheckout({...})` configuration. */
  datatype Checkout = Checkout(
    publicKey: string, productIdentity: string, productName: string,
    productUrl: string, paymentPreference: seq<string>)

  /**
   * A shown widget: its configuration, the `show({ amount })` argument, and the
   * values its event handlers captured when it was created.
   */
  datatype KhaltiSession = KhaltiSession(
    checkout: Checkout, amount: int,
    user: Option<string>, packageId: string, travelDate: string, price: int)

  /** The page's held state. */
  class PackageDetailPage {
    const routeId: string
    const user: Option<string>
    const pkg: Option<Package>
    const store: RemoteStore
    var isFavorite: bool
    var reviewText: string
    var rating: int
    var submittingReview: bool
    var booking: bool
    var showBookingDialog: bool
    var travelDate: string

    /** The store's ids are consistent and the rating is between one and five stars. */
    ghost predicate Valid()
      reads this, store
    {
      store.Valid() && 1 <= rating <= 5
    }

    /** The state after the package fetch and favourite check; `favoriteFound` is whether the check found a row. */
    constructor (routeId: string, user: Option<string>, pkg: Option<Package>, favoriteFound: bool, store: RemoteStore)
      requires store.Valid()
      ensures Valid()
      ensures this.routeId == routeId && this.user == user && this.pkg == pkg && this.store == store
      ensures isFavorite == (user.Some? && favoriteFound)
      ensures reviewText == "" && rating == ReviewForm.InitialRating && !submittingReview
      ensures !booking && !showBookingDialog && travelDate == ""
    {
      this.routeId, this.user, this.pkg, this.store := routeId, user, pkg, store;
      isFavorite := user.Some? && favoriteFound;
      reviewText, rating, submittingReview := "", ReviewForm.InitialRating, false;
      booking, showBookingDialog, travelDate := false, false, "";
    }

    /** The dialog's `onOpenChange`. */
    method SetDialogOpen(open: bool)
      modifies this`showBookingDialog
      ensures showBookingDialog == open
    {
      showBookingDialog := open;
    }

    /** The date input's `onChange`. */
    method SelectTravelDate(date: string)
      modifies this`travelDate
      ensures travelDate == date
    {
      travelDate := date;
    }

    /** A star button's `onClick`. */
    method SelectStar(star: int)
      requires Valid() && star in ReviewForm.Stars
      modifies this`rating
      ensures Valid() && rating == star
    {
      rating := star;
    }

    /** The comment textarea's `onChange`. */
    method EditReviewText(text: string)
      modifies this`reviewText
      ensures reviewText == text
    {
      reviewText := text;
    }

    /**
     * `toggleFavorite`: signed out, nothing is called; a favourite is deleted and
     * a non-favourite inserted, and `isFavorite` flips only when that call succeeds.
     */
    method ToggleFavorite(outcome: Outcome) returns (notice: Notice)
      requires Valid()
      modifies this`isFavorite, store
      ensures Valid()
      ensures isFavorite == if user.Some? && outcome.Succeeds? then !old(isFavorite) else old(isFavorite)
      ensures user.None? ==> notice == SignInRequired && unchanged(store)
      ensures user.Some? && old(isFavorite) ==>
        && store.requests == old(store.requests) + [Request.DeleteFavorites(user.value, routeId)]
        && store.favorites == (if outcome.Succeeds? then WithoutFavorites(old(store.favorites), user.value, routeId) else old(store.favorites))
        && notice == (if outcome.Succeeds? then RemovedFromFavorites else FavoriteError(outcome.message))
      ensures user.Some? && !old(isFavorite) ==>
        && store.requests == old(store.requests) + [Request.InsertFavorite(Favorite(user.value, routeId))]
        && store.favorites == (if outcome.Succeeds? then old(store.favorites) + [Favorite(user.value, routeId)] else old(store.favorites))
        && notice == (if outcome.Succeeds? then AddedToFavorites else FavoriteError(outcome.message))
      ensures store.bookings == old(store.bookings) && store.reviews == old(store.reviews) && store.nextId == old(store.nextId)
    {
      if user.None? {
        return SignInRequired;
      }
      if isFavorite {
        store.DeleteFavorites(user.value, routeId, outcome);
        if outcome.Succeeds? {
          isFavorite := false;
          notice := RemovedFromFavorites;
        } else {
          notice := FavoriteError(outcome.message);
        }
      } else {
        store.InsertFavorite(Favorite(user.value, routeId), outcome);
        if outcome.Succeeds? {
          isFavorite := true;
          notice := AddedToFavorites;
        } else {
          notice := FavoriteError(outcome.message);
        }
      }
    }

    /**
     * `handleBookingSubmit` up to its `await`: a missing user, package or date
     * returns without a request and leaves `booking` alone; otherwise `booking`
     * is set and the pay-later booking is the one request to issue.
     */
    method BeginBookingSubmit() returns (request: Option<NewBooking>, notice: Notice)
      modifies this`booking
      ensures request.None? <==> !PayLaterGuard(user, pkg, travelDate)
      ensures request.None? ==> booking == old(booking) && notice == MissingInformation
      ensures request.Some? ==> booking && notice == Silent
      ensures request.Some? ==> request.value == PayLaterBooking(user.value, routeId, travelDate, pkg.value.price)
    {
      if !PayLaterGuard(user, pkg, travelDate) {
        return None, MissingInformation;
      }
      booking := true;
      request := Some(PayLaterBooking(user.value, routeId, travelDate, pkg.value.price));
      notice := Silent;
    }

    /**
     * `handleBookingSubmit` after its `await`: success closes the dialog and clears
     * the date; failure keeps both for a retry. The `finally` clears `booking`.
     */
    method CompleteBookingSubmit(outcome: Outcome) returns (notice: Notice)
      modifies this`booking, this`showBookingDialog, this`travelDate
      ensures !booking
      ensures outcome.Succeeds? ==> !showBookingDialog && travelDate == "" && notice == BookingSuccessful
      ensures outcome.FailsWith? ==> showBookingDialog == old(showBookingDialog) && travelDate == old(travelDate)
      ensures outcome.FailsWith? ==> notice == BookingFailed(outcome.message)
    {
      if outcome.Succeeds? {
        notice := BookingSuccessful;
        showBookingDialog := false;
        travelDate := "";
      } else {
        notice := BookingFailed(outcome.message);
      }
      booking := false;
    }

    /** The whole pay-later `handleBookingSubmit`, with the insert's outcome as an input. */
    method HandleBookingSubmit(outcome: Outcome) returns (notice: Notice)
      requires Valid()
      modifies this`booking, this`showBookingDialog, this`travelDate, store
      ensures Valid()
      ensures !PayLaterGuard(user, pkg, old(travelDate)) ==>
        && notice == MissingInformation && unchanged(store)
        && booking == old(booking) && showBookingDialog == old(showBookingDialog) && travelDate == old(travelDate)
      ensures PayLaterGuard(user, pkg, old(travelDate)) ==>
        && store.requests == old(store.requests) + [Request.InsertBooking(PayLaterBooking(user.value, routeId, old(travelDate), pkg.value.price))]
        && store.bookings == (if outcome.Succeeds?
                              then old(store.bookings) + [Stored(old(store.nextId), PayLaterBooking(user.value, routeId, old(travelDate), pkg.value.price))]
                              else old(store.bookings))
        && store.nextId == (if outcome.Succeeds? then old(store.nextId) + 1 else old(store.nextId))
        && !booking
        && (outcome.Succeeds? ==> !showBookingDialog && travelDate == "" && notice == BookingSuccessful)
        && (outcome.FailsWith? ==> showBookingDialog == old(showBookingDialog) && travelDate == old(travelDate) && notice == BookingFailed(outcome.message))
      ensures store.favorites == old(store.favorites) && store.reviews == old(store.reviews)
    {
      var request;
      request, notice := BeginBookingSubmit();
      if request.Some? {
        store.InsertBooking(request.value, outcome);
        notice := CompleteBookingSubmit(outcome);
      }
    }

    /**
     * `initializeKhaltiPayment`: with no package or no date nothing is shown; otherwise
     * the widget is configured for this package and shown with the price in minor
     * units, its handlers capturing the current user, route id, date and price.
     * No state changes and nothing is inserted.
     */
    method InitializeKhaltiPayment(pageUrl: string) returns (session: Option<KhaltiSession>, notice: Notice)
      ensures session.None? <==> pkg.None? || travelDate == ""
      ensures session.None? ==> notice == MissingInformation
      ensures session.Some? ==> notice == Silent
      ensures session.Some? ==>
        && session.value.checkout == Checkout(KhaltiPublicKey, pkg.value.id, pkg.value.title, pageUrl, KhaltiPreferences)
        && session.value.amount == WidgetAmount(pkg.value.price)
        && session.value.user == user && session.value.packageId == routeId
        && session.value.travelDate == travelDate && session.value.price == pkg.value.price
        && session.value.travelDate != ""
    {
      if pkg.None? || travelDate == "" {
        return None, MissingInformation;
      }
      var checkout := Checkout(KhaltiPublicKey, pkg.value.id, pkg.value.title, pageUrl, KhaltiPreferences);
      session := Some(KhaltiSession(checkout, WidgetAmount(pkg.value.price), user, routeId, travelDate, pkg.value.price));
      notice := Silent;
    }

    /**
     * `onSuccess(payload)`: exactly one insert of the confirmed, paid booking with
     * the captured values and the payload's token. Only if it succeeds are the
     * dialog closed and the date cleared; a failure is the distinct
     * "payment taken, booking not saved" notice. `booking` is not touched.
     */
    method OnKhaltiSuccess(session: KhaltiSession, token: string, outcome: Outcome) returns (notice: Notice)
      requires Valid()
      requires session.user.Some?
      modifies this`showBookingDialog, this`travelDate, store
      ensures Valid()
      ensures store.requests == old(store.requests)
        + [Request.InsertBooking(KhaltiBooking(session.user.value, session.packageId, session.travelDate, session.price, token))]
      ensures store.bookings == if outcome.Succeeds?
        then old(store.bookings) + [Stored(old(store.nextId), KhaltiBooking(session.user.value, session.packageId, session.travelDate, session.price, token))]
        else old(store.bookings)
      ensures store.nextId == if outcome.Succeeds? then old(store.nextId) + 1 else old(store.nextId)
      ensures store.favorites == old(store.favorites) && store.reviews == old(store.reviews)
      ensures outcome.Succeeds? ==> !showBookingDialog && travelDate == "" && notice == PaymentSuccessful
      ensures outcome.FailsWith? ==> showBookingDialog == old(showBookingDialog) && travelDate == old(travelDate)
      ensures outcome.FailsWith? ==> notice == ErrorSavingBooking(outcome.message)
    {
      var b := KhaltiBooking(session.user.value, session.packageId, session.travelDate, session.price, token);
      store.InsertBooking(b, outcome);
      if outcome.Succeeds? {
        notice := PaymentSuccessful;
        showBookingDialog := false;
        travelDate := "";
      } else {
        notice := ErrorSavingBooking(outcome.message);
      }
    }

    /** `onError`: a notice and nothing else. */
    method OnKhaltiError(session: KhaltiSession) returns (notice: Notice)
      ensures notice == PaymentFailed
    {
      notice := PaymentFailed;
    }

    /** `onClose`: does nothing at all. */
    method OnKhaltiClose(session: KhaltiSession) returns (notice: Notice)
      ensures notice == Silent
    {
      notice := Silent;
    }

    /**
     * `submitReview` up to its `await`: signed out or with a blank comment it
     * returns silently; otherwise `submittingReview` is set and the review with
     * the current rating and untrimmed comment is the one request to issue.
     */
    method BeginSubmitReview() returns (request: Option<NewReview>)
      requires Valid()
      modifies this`submittingReview
      ensures Valid()
      ensures request.None? <==> user.None? || IsBlank(reviewText)
      ensures request.None? ==> submittingReview == old(submittingReview)
      ensures request.Some? ==> submittingReview && request.value == NewReview(user.value, routeId, rating, reviewText)
    {
      TrimEmptyIffBlank(reviewText);
      if user.None? || Trim(reviewText) == [] {
        return None;
      }
      submittingReview := true;
      request := Some(NewReview(user.value, routeId, rating, reviewText));
    }

    /** `submitReview` after its `await`: success resets comment and rating; `finally` clears the flag. */
    method CompleteSubmitReview(outcome: Outcome) returns (notice: Notice)
      requires Valid()
      modifies this`reviewText, this`rating, this`submittingReview
      ensures Valid()
      ensures !submittingReview
      ensures outcome.Succeeds? ==> reviewText == "" && rating == ReviewForm.InitialRating && notice == ReviewSubmitted
      ensures outcome.FailsWith? ==> reviewText == old(reviewText) && rating == old(rating) && notice == ReviewError(outcome.message)
    {
      if outcome.Succeeds? {
        reviewText := "";
        rating := ReviewForm.InitialRating;
        notice := ReviewSubmitted;
      } else {
        notice := ReviewError(outcome.message);
      }
      submittingReview := false;
    }

    /** The whole `submitReview`, with the insert's outcome as an input. */
    method SubmitReview(outcome: Outcome) returns (notice: Notice)
      requires Valid()
      modifies this`reviewText, this`rating, this`submittingReview, store
      ensures Valid()
      ensures user.None? || IsBlank(old(reviewText)) ==>
        && notice == Silent && unchanged(store)
        && reviewText == old(reviewText) && rating == old(rating) && submittingReview == old(submittingReview)
      ensures user.Some? && !IsBlank(old(reviewText)) ==>
        && store.requests == old(store.requests) + [Request.InsertReview(NewReview(user.value, routeId, old(rating), old(reviewText)))]
        && store.reviews == (if outcome.Succeeds? then old(store.reviews) + [NewReview(user.value, routeId, old(rating), old(reviewText))] else old(store.reviews))
        && !submittingReview
        && (outcome.Succeeds? ==> reviewText == "" && rating == ReviewForm.InitialRating && notice == ReviewSubmitted)
        && (outcome.FailsWith? ==> reviewText == old(reviewText) && rating == old(rating) && notice == ReviewError(outcome.message))
      ensures store.bookings == old(store.bookings) && store.favorites == old(store.favorites) && store.nextId == old(store.nextId)
    {
      var request := BeginSubmitReview();
      notice := Silent;
      if request.Some? {
        store.InsertReview(request.value, outcome);
        notice := CompleteSubmitReview(outcome);
      }
    }
  }

  /**
   * The page's booking buttons: none while the package is missing (the page shows
   * "Package not found") or for a signed-out user; otherwise the dialog
   * component's buttons and enable rules.
   */
  function BookingControls(user: Option<string>, pkg: Option<Package>, booking: bool, travelDate: string): (r: seq<BookingSection.Control>)
    ensures r == [] <==> user.None? || pkg.None?
    ensures forall c :: c in r ==> (c.enabled ==> travelDate != "")
    ensures forall c :: c in r && c.kind == BookingSection.PayLater ==> (c.enabled <==> !booking && travelDate != "")
    ensures forall c :: c in r && c.kind == BookingSection.Khalti ==> (c.enabled <==> travelDate != "")
    ensures user.Some? && pkg.Some? ==> |r| == 2 && r[0].kind == BookingSection.PayLater && r[1].kind == BookingSection.Khalti
  {
    if pkg.None? then [] else BookingSection.Controls(user.Some?, booking, travelDate)
  }

  /**
   * A pay-later button that is enabled always passes the submit's guard, and on
   * a rendered page with a user present the guard fails exactly when the button
   * is disabled for want of a date.
   */
  lemma EnabledPayLaterPassesGuard(user: Option<string>, pkg: Option<Package>, booking: bool, travelDate: string)
    ensures forall c :: c in BookingControls(user, pkg, booking, travelDate) && c.kind == BookingSection.PayLater && c.enabled
              ==> PayLaterGuard(user, pkg, travelDate)
    ensures user.Some? && pkg.Some? ==> (PayLaterGuard(user, pkg, travelDate) <==> BookingSection.KhaltiEnabled(travelDate))
  {
  }
}
