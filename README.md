# Tour-package storefront: booking, review, favourite and operator flows

This project models the logic of a React storefront for tour packages. Customers book a
package "pay later" or through the Khalti checkout widget, mark packages as favourites and
leave reviews. Operators accept or reject pending bookings from a booking list.

The backend (a hosted database with auth) is modelled by `Remote.RemoteStore`. It holds the
`bookings`, `favorites` and `reviews` tables as sequences and logs every call made in
`requests`. Whether a call succeeds is an input, `Outcome` (`Succeeds` or
`FailsWith(message)`). A failed call is logged and changes no table. Each handler that sets an
in-flight flag around an awaited call (`handleBookingSubmit` and `submitReview` on the page,
and the dialog's and the review form's submits, which await the `onBooking` and `onSubmit`
props) has three parts:

- `Begin…` runs the guard, sets the in-flight flag and returns the one request to issue. So the flag is visibly true while the call is in flight.
- `Complete…` does the outcome-dependent reset and then the `finally`.
- `Handle…` (or the handler's own name) chains the two around the call. Its contract covers the whole handler.

`updateBookingStatus` in the operator view has no guard: it wraps its store call and refetch,
both in `UpdateBookingStatus`, between the setters `BeginUpdate` and `CompleteUpdate`. The
handlers with no in-flight flag (`toggleFavorite`, `fetchBookings` and the Khalti widget's
`onSuccess`) are single methods over the whole call.

Toasts are returned as `Notice` tags. Every component whose fields change is a class. Its
methods name the component fields they may change with `this`field` frames. A method that
calls the store may change the whole store object, so its contract states every table and the
id counter of the store explicitly. The store's own methods do the same.

Modules: `Wrappers` (Option), `Text` (`trim` and ASCII `toUpperCase`), `Remote` (records, the
store, the update and ordering functions), `PackageDetail`, `BookingSection`,
`BookingManagement`, `BookingCustomerActions`, `BookingStatusBadge`, `ReviewForm`.

Notes on the code:
- Pay-later submit on the page checks for a signed-in user and a loaded package as well as a date.
- The dialog in `BookingSection` is not bound to its `showBookingDialog` flag. The model keeps the flag.
- The pay-later insert sends no payment columns. Column defaults of the database are not modelled.

## Model

| member | source | states |
|---|---|---|
| Text.TrimStart | src/components/package/ReviewForm.tsx:17 | leading whitespace removed: a suffix of the input, all of whose dropped characters are whitespace, starting with a non-whitespace character |
| Text.TrimEnd | src/components/package/ReviewForm.tsx:17 | trailing whitespace removed: a prefix whose dropped characters are all whitespace, ending with a non-whitespace character |
| Text.TrimEmptyIffBlank | src/components/package/ReviewForm.tsx:17 | `text.trim()` is empty (falsy) exactly when every character is whitespace |
| Text.Trim | src/components/package/ReviewForm.tsx:17 | `trim()` gives the contiguous piece of the input after the leading whitespace run, neither starting nor ending with whitespace, with only whitespace after it; with `TrimStart` this fixes the result uniquely |
| Text.UpperAscii | src/components/booking/BookingStatusBadge.tsx:39 | lower-case ASCII letters become their upper-case letter (code minus 32); every other character is kept |
| Text.Capitalize | src/components/booking/BookingStatusBadge.tsx:39 | `charAt(0).toUpperCase() + slice(1)` keeps the length and every character after index 0, and upper-cases index 0 |
| Remote.Stored | src/pages/PackageDetail.tsx:184-192 | the stored row carries the id the store assigns and exactly the columns the insert sent |
| Remote.SetStatus | src/components/BookingManagement.tsx:65-68 | the update gives the new status to every row with the given id and leaves every other row unchanged; ids and length are kept; any status string is accepted |
| Remote.SetStatusAbsentId | src/components/BookingManagement.tsx:65-68 | an update naming no existing row leaves the table as it was |
| Remote.NewestFirst | src/components/BookingManagement.tsx:38-47 | rows ordered by creation time descending: row i of the result is row n-1-i of the table |
| Remote.NewestFirstUniqueIds | src/components/BookingManagement.tsx:38-50 | the fetched list, reordered, still has pairwise distinct booking ids |
| Remote.WithoutFavorites | src/pages/PackageDetail.tsx:148-152 | deleting by user and package removes every favourite equal to that pair and keeps every other row with its multiplicity |
| Remote.RemoteStore.InsertBooking | src/pages/PackageDetail.tsx:184-193 | one logged insert; on success the record is appended under the current counter id and the counter advances by one; on failure no table and no counter changes |
| Remote.RemoteStore.UpdateBookingStatus | src/components/BookingManagement.tsx:65-70 | one logged update; on success the table is `SetStatus` of the old table, on failure unchanged; the id counter is kept |
| Remote.RemoteStore.SelectBookings | src/components/BookingManagement.tsx:38-49 | one logged select returning the rows newest first, or the error message; no table changes; the id counter is kept |
| Remote.RemoteStore.InsertFavorite | src/pages/PackageDetail.tsx:157-160 | one logged insert; the favourite is appended only on success; the id counter is kept |
| Remote.RemoteStore.DeleteFavorites | src/pages/PackageDetail.tsx:148-153 | one logged delete; matching favourites are removed only on success; the id counter is kept |
| Remote.RemoteStore.InsertReview | src/pages/PackageDetail.tsx:281-289 | one logged insert; the review is appended only on success; the id counter is kept |
| BookingStatusBadge.BadgeColor | src/components/booking/BookingStatusBadge.tsx:9-33 | total over all statuses and one of four classes; yellow iff pending; for bookings green iff confirmed and red iff rejected; for payments green iff completed and red iff failed; otherwise gray (cancelled included) |
| BookingStatusBadge.UnknownStatusIsGray | src/components/booking/BookingStatusBadge.tsx:20-21 | a status neither kind of badge recognises is gray |
| BookingStatusBadge.DisplayText | src/components/booking/BookingStatusBadge.tsx:37-39 | payment badge: the literal `Payment: {status}`; booking badge: same length, first character upper-cased, rest unchanged |
| BookingStatusBadge.PaymentTextIgnoresStatus | src/components/booking/BookingStatusBadge.tsx:38 | as written, every payment status shows the same text, which is not `Payment: completed` for a completed payment |
| BookingStatusBadge.IntendedDisplayText | src/components/booking/BookingStatusBadge.tsx:38 | corrected payment text: `Payment: ` followed by the status; booking text as before |
| BookingStatusBadge.IntendedPaymentTextDistinguishes | src/components/booking/BookingStatusBadge.tsx:38 | with the correction, distinct payment statuses show distinct texts |
| BookingCustomerActions.OfferedActions | src/components/booking/BookingCustomerActions.tsx:39-58 | buttons exist iff status is "pending"; each requests this card's id; Accept requests "confirmed" and Reject "rejected"; both disabled while updating |
| BookingCustomerActions.ReachableTransitions | src/components/booking/BookingCustomerActions.tsx:39-51 | an enabled button can request `to` from `from` iff the card is not updating and the change is pending to confirmed or pending to rejected |
| BookingManagement.PendingBookings | src/components/BookingManagement.tsx:96 | the filter holds exactly the bookings whose status is "pending", and no more rows than the list |
| BookingManagement.PendingCount | src/components/BookingManagement.tsx:96 | `pendingBookingsCount` is at most `bookings.length` |
| BookingManagement.PendingBookingsMultiplicity | src/components/BookingManagement.tsx:96 | the filter keeps each pending booking as many times as the list holds it, and no other booking |
| BookingManagement.PendingCountCountsPositions | src/components/BookingManagement.tsx:96 | `pendingBookingsCount` equals the number of positions of the list whose status is exactly "pending" |
| BookingManagement.PendingCountAppend | src/components/BookingManagement.tsx:96 | the filter and the count distribute over concatenation |
| BookingManagement.PendingCountNewestFirst | src/components/BookingManagement.tsx:47 | the pending count does not depend on the fetch order |
| BookingManagement.AllPendingIffCountIsLength | src/components/BookingManagement.tsx:96 | the count equals the list length iff every booking is pending |
| BookingManagement.SettlingLowersPendingCount | src/components/BookingManagement.tsx:62-68 | giving one pending booking (unique id) any non-pending status lowers the pending count by exactly one |
| BookingManagement.AtMostOneCardUpdating | src/components/BookingManagement.tsx:110 | with distinct ids, at most one card has `updating === booking.id` |
| BookingManagement.OperatorDecision | src/components/BookingManagement.tsx:62-72 | an operator decision through a button of a pending card moves that booking to confirmed or rejected, leaves every other row unchanged and lowers the pending count by one |
| BookingManagement.BookingManagementView.constructor | src/components/BookingManagement.tsx:28-30 | empty list, `loading` true, nothing updating |
| BookingManagement.BookingManagementView.FetchBookings | src/components/BookingManagement.tsx:36-60 | on success the list is the store's rows newest first; on error the list is kept; `loading` ends false either way; one select |
| BookingManagement.BookingManagementView.BeginUpdate | src/components/BookingManagement.tsx:63 | `updating` holds the booking id while the update is in flight |
| BookingManagement.BookingManagementView.CompleteUpdate | src/components/BookingManagement.tsx:83-85 | `updating` is null once the update has finished |
| BookingManagement.BookingManagementView.UpdateBookingStatus | src/components/BookingManagement.tsx:62-86 | one update for any status string, without checking the current status; on success only rows with that id change and the list is refetched; on failure no refetch and the list is kept; `updating` ends null |
| ReviewForm.SubmitEnabledIff | src/components/package/ReviewForm.tsx:63 | submit is enabled iff nothing is in flight and the comment has a non-whitespace character |
| ReviewForm.ReviewFormState.constructor | src/components/package/ReviewForm.tsx:12-14 | rating 5, empty comment, not submitting |
| ReviewForm.ReviewFormState.SelectStar | src/components/package/ReviewForm.tsx:42 | the rating becomes the chosen star and stays in 1..5 |
| ReviewForm.ReviewFormState.EditText | src/components/package/ReviewForm.tsx:56 | the comment is replaced |
| ReviewForm.ReviewFormState.BeginSubmit | src/components/package/ReviewForm.tsx:16-21 | a blank comment makes no call and leaves `submitting`; otherwise `submitting` is true and the call carries the current rating and untrimmed comment |
| ReviewForm.ReviewFormState.CompleteSubmit | src/components/package/ReviewForm.tsx:21-26 | resolved: comment "" and rating 5; rejected: both kept and the rejection propagates; `submitting` false either way |
| ReviewForm.ReviewFormState.HandleSubmit | src/components/package/ReviewForm.tsx:16-27 | whole handler: at most one call, made iff the comment is not blank, with the held rating and text; resets only on resolve; `submitting` false afterwards |
| BookingSection.Controls | src/components/package/BookingSection.tsx:66-146 | signed out: no booking button; signed in: pay-later enabled iff not booking and a date is held, Khalti enabled iff a date is held |
| BookingSection.InFlightBlocksPayLater | src/components/package/BookingSection.tsx:134 | while a submit is in flight the pay-later button is disabled |
| BookingSection.BookingDialog.constructor | src/components/package/BookingSection.tsx:34-36 | dialog closed, no date, not booking |
| BookingSection.BookingDialog.SetDialogOpen | src/components/package/BookingSection.tsx:80 | the flag takes the given value, so re-opening is a no-op |
| BookingSection.BookingDialog.SelectTravelDate | src/components/package/BookingSection.tsx:114 | the held date is replaced without validation |
| BookingSection.BookingDialog.BeginBookingSubmit | src/components/package/BookingSection.tsx:42-53 | empty date: no call, `booking` untouched, date notice; otherwise `booking` true and `onBooking` called with the held date |
| BookingSection.BookingDialog.CompleteBookingSubmit | src/components/package/BookingSection.tsx:53-58 | resolved: dialog flag false and date ""; rejected: both kept and the rejection propagates; `booking` false either way |
| BookingSection.BookingDialog.HandleBookingSubmit | src/components/package/BookingSection.tsx:42-59 | whole handler: `onBooking` called exactly once with the held date iff one is held; resets only on resolve; `booking` false after a call |
| BookingSection.BookingDialog.HandleKhaltiPayment | src/components/package/BookingSection.tsx:61-64 | `onKhaltiPayment` is called iff a date is held, and nothing changes |
| PackageDetail.BookingPaths | src/pages/PackageDetail.tsx:184-248 | the two insert paths carry the same user, package, date and price, differ only in status and payment columns, and never coincide |
| PackageDetail.PayLaterBooking | src/pages/PackageDetail.tsx:184-192 | the pay-later insert is a well-formed pending booking with no payment reference, for the user, package and date, at the package price |
| PackageDetail.KhaltiBooking | src/pages/PackageDetail.tsx:236-248 | the Khalti insert is a well-formed confirmed booking with payment status "completed", method "khalti" and the widget's token as reference, for the captured user, package, date and price |
| PackageDetail.WidgetAmount | src/pages/PackageDetail.tsx:274 | the widget amount is a multiple of 100 from which the price is recovered |
| PackageDetail.PackageDetailPage.constructor | src/pages/PackageDetail.tsx:55-64 | initial held state, with `isFavorite` true only for a signed-in user whose favourite check found a row |
| PackageDetail.PackageDetailPage.SetDialogOpen | src/pages/PackageDetail.tsx:412-415 | the dialog flag takes the given value |
| PackageDetail.PackageDetailPage.SelectTravelDate | src/pages/PackageDetail.tsx:451 | the held date is replaced without validation |
| PackageDetail.PackageDetailPage.SelectStar | src/pages/PackageDetail.tsx:519 | the rating becomes the star and stays in 1..5 |
| PackageDetail.PackageDetailPage.EditReviewText | src/pages/PackageDetail.tsx:533 | the comment is replaced |
| PackageDetail.PackageDetailPage.ToggleFavorite | src/pages/PackageDetail.tsx:137-171 | no user: no call and nothing changes; a favourite is deleted, otherwise inserted; `isFavorite` flips only when that call succeeds |
| PackageDetail.PackageDetailPage.BeginBookingSubmit | src/pages/PackageDetail.tsx:173-192 | missing user, package or date: no request and `booking` untouched; otherwise `booking` true and the request is the pending booking for user, route id, date and price |
| PackageDetail.PackageDetailPage.CompleteBookingSubmit | src/pages/PackageDetail.tsx:193-209 | success closes the dialog and clears the date; failure keeps both; `booking` false either way |
| PackageDetail.PackageDetailPage.HandleBookingSubmit | src/pages/PackageDetail.tsx:173-210 | guard fails: store untouched and held state unchanged; otherwise exactly one insert of the pay-later booking, resets only on success, `booking` false afterwards |
| PackageDetail.PackageDetailPage.InitializeKhaltiPayment | src/pages/PackageDetail.tsx:212-275 | no package or no date: no widget; otherwise the widget is configured for the package and shown with price times 100, its handlers capturing user, route id, date and price; nothing is inserted and no state changes |
| PackageDetail.PackageDetailPage.OnKhaltiSuccess | src/pages/PackageDetail.tsx:235-263 | exactly one insert of the confirmed, completed, Khalti booking with the token and captured price; dialog closed and date cleared only on success; a failure gives the distinct error-saving-booking notice |
| PackageDetail.PackageDetailPage.OnKhaltiError | src/pages/PackageDetail.tsx:264-270 | a payment-failed notice; no insert and no state change |
| PackageDetail.PackageDetailPage.OnKhaltiClose | src/pages/PackageDetail.tsx:271 | nothing: no notice, no insert, no state change |
| PackageDetail.PackageDetailPage.BeginSubmitReview | src/pages/PackageDetail.tsx:277-288 | no user or blank comment: silent and no request; otherwise `submittingReview` true and the request carries user, route id, rating and untrimmed comment |
| PackageDetail.PackageDetailPage.CompleteSubmitReview | src/pages/PackageDetail.tsx:289-302 | success resets comment and rating to 5; failure keeps both; the flag is false either way |
| PackageDetail.PackageDetailPage.SubmitReview | src/pages/PackageDetail.tsx:277-303 | whole handler: at most one review insert, made iff signed in and not blank; resets only on success; flag false afterwards |
| PackageDetail.BookingControls | src/pages/PackageDetail.tsx:318-484 | no booking button while the package is missing or for a signed-out user; otherwise pay-later then Khalti, pay-later enabled iff not booking and a date is held, Khalti enabled iff a date is held |
| PackageDetail.EnabledPayLaterPassesGuard | src/pages/PackageDetail.tsx:466-476 | an enabled pay-later button always passes the submit guard; with a user and a package, the guard holds iff a date is held |

## Left out

- Network, auth and row-level security: the backend is the `RemoteStore` stand-in, with each call's outcome as an input. The `packages!inner`/`profiles!inner` joins of the booking fetch are not modelled: every row is assumed to have its package and profile.
- Booking ids are natural numbers from a store counter, not UUID strings. Creation time is modelled as insertion order, so `order("created_at", { ascending: false })` is `NewestFirst`.
- `fetchPackageDetails`, `checkFavoriteStatus` and `fetchReviews` are not modelled as operations. The page starts from their results (constructor inputs). The un-awaited `fetchReviews()` after a review insert is not modelled.
- Async interleaving: stale closures and late responses after unmount are not modelled. Each handler runs to completion before the next event. The Khalti handlers' captured values are modelled explicitly in `KhaltiSession`.
- Toasts are returned `Notice` tags. Their wording and variants are not modelled.
- Clock-dependent code (the `minDate` of tomorrow) and all `toLocaleDateString` formatting are not modelled. Neither is the floating-point average rating with `toFixed`.
- PackageDetail.WidgetAmount: the price is an integer, so `pkg.price * 100` is exact; the source multiplies floating-point numbers.
- PackageDetail.PackageDetailPage.OnKhaltiSuccess: requires a captured user. The source writes `user!.id`, and the Khalti button is only rendered for a signed-in user (src/pages/PackageDetail.tsx:411).
- Text.UpperAscii: upper-cases ASCII letters only. JavaScript's `toUpperCase` also maps other letters, some to several characters, so for non-ASCII statuses `Text.Capitalize` is weaker than the source.
- Text.TrimStart: the whitespace set is ECMAScript's WhiteSpace and LineTerminator characters with the Zs category written out. Any later Unicode change to that category is not followed.
- Layout, routing and the presentation-only components are not modelled: the home page sections, the package header, review list, booking card, header, empty state and payment info.

## Findings

| source | as written | input that shows it | evidently intended | confidence | as-written member | corrected member |
|---|---|---|---|---|---|---|
| src/components/booking/BookingStatusBadge.tsx:38 | the payment badge text is the template `` `Payment: {status}` `` without `$`, so it shows the literal `{status}` | payment status "completed" shows `Payment: {status}`, the same as "failed" | `` `Payment: ${status}` ``, showing the status | high (not executed) | BookingStatusBadge.DisplayText, BookingStatusBadge.PaymentTextIgnoresStatus | BookingStatusBadge.IntendedDisplayText, BookingStatusBadge.IntendedPaymentTextDistinguishes |
