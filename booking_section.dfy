/** The booking dialog as a component of its own: the date, the in-flight flag and the two booking buttons. */
module BookingSection {
  import opened Wrappers

  /** `disabled={booking || !travelDate}` on "Book & Pay Later", negated. */
  predicate PayLaterEnabled(booking: bool, travelDate: string) {
    !booking && travelDate != ""
  }

  /** `disabled={!travelDate}` on "Khalti", negated. */
  predicate KhaltiEnabled(travelDate: string) {
    travelDate != ""
  }

  datatype ControlKind = PayLater | Khalti

  datatype Control = Control(kind: ControlKind, enabled: bool)

  /** The booking buttons rendered: none when signed out, otherwise pay-later then Khalti. */
  function Controls(isLoggedIn: bool, booking: bool, travelDate: string): (r: seq<Control>)
    ensures r == [] <==> !isLoggedIn
    ensures forall c :: c in r ==> (c.enabled ==> travelDate != "")
    ensures forall c :: c in r && c.kind == PayLater ==> (c.enabled <==> !booking && travelDate != "")
    ensures forall c :: c in r && c.kind == Khalti ==> (c.enabled <==> travelDate != "")
    ensures isLoggedIn ==> |r| == 2 && r[0].kind == PayLater && r[1].kind == Khalti
  {
    if isLoggedIn then [Control(PayLater, PayLaterEnabled(booking, travelDate)), Control(Khalti, KhaltiEnabled(travelDate))]
    else []
  }

  /** While a pay-later booking is in flight its button cannot be pressed again. */
  lemma InFlightBlocksPayLater(travelDate: string)
    ensures !PayLaterEnabled(true, travelDate)
  {
  }

  /** The toast shown when the date is missing. */
  datatype Notice = Silent | SelectDateFirst

  /** The component's held state; `isLoggedIn` is a prop. */
  class BookingDialog {
    const isLoggedIn: bool
    var showBookingDialog: bool
    var travelDate: string
    var booking: bool

    constructor (isLoggedIn: bool)
      ensures this.isLoggedIn == isLoggedIn
      ensures !showBookingDialog && travelDate == "" && !booking
    {
      this.isLoggedIn := isLoggedIn;
      showBookingDialog, travelDate, booking := false, "", false;
    }

    /** The dialog's `onOpenChange`; setting the flag it already has changes nothing. */
    method SetDialogOpen(open: bool)
      modifies this`showBookingDialog
      ensures showBookingDialog == open
    {
      showBookingDialog := open;
    }

    /** The date input's `onChange`: the held value is replaced, unchecked. */
    method SelectTravelDate(date: string)
      modifies this`travelDate
      ensures travelDate == date
    {
      travelDate := date;
    }

    /**
     * `handleBookingSubmit` up to its `await`: with no date it returns without a
     * call, leaving `booking` alone; otherwise it sets `booking` and calls
     * `onBooking` with the held date.
     */
    method BeginBookingSubmit() returns (call: Option<string>, notice: Notice)
      modifies this`booking
      ensures call == if travelDate == "" then None else Some(travelDate)
      ensures call.None? ==> booking == old(booking) && notice == SelectDateFirst
      ensures call.Some? ==> booking && notice == Silent
    {
      if travelDate == "" {
        return None, SelectDateFirst;
      }
      booking := true;
      call, notice := Some(travelDate), Silent;
    }

    /**
     * `handleBookingSubmit` after its `await`: if `onBooking` resolves, the dialog
     * flag and the date are cleared; if it rejects, both are kept and, with no
     * `catch`, the rejection propagates. The `finally` clears `booking`.
     */
    method CompleteBookingSubmit(resolves: bool) returns (propagates: bool)
      modifies this`showBookingDialog, this`travelDate, this`booking
      ensures !booking && propagates == !resolves
      ensures resolves ==> !showBookingDialog && travelDate == ""
      ensures !resolves ==> showBookingDialog == old(showBookingDialog) && travelDate == old(travelDate)
    {
      if resolves {
        showBookingDialog := false;
        travelDate := "";
      }
      booking := false;
      propagates := !resolves;
    }

    /** The whole `handleBookingSubmit`, with the outcome of `onBooking` as an input. */
    method HandleBookingSubmit(resolves: bool) returns (call: Option<string>, propagates: bool, notice: Notice)
      modifies this`showBookingDialog, this`travelDate, this`booking
      ensures call == if old(travelDate) == "" then None else Some(old(travelDate))
      ensures call.None? ==> !propagates && notice == SelectDateFirst
      ensures call.None? ==> booking == old(booking) && showBookingDialog == old(showBookingDialog) && travelDate == old(travelDate)
      ensures call.Some? ==> !booking && propagates == !resolves && notice == Silent
      ensures call.Some? && resolves ==> !showBookingDialog && travelDate == ""
      ensures call.Some? && !resolves ==> showBookingDialog == old(showBookingDialog) && travelDate == old(travelDate)
    {
      call, notice := BeginBookingSubmit();
      propagates := false;
      if call.Some? {
        propagates := CompleteBookingSubmit(resolves);
      }
    }

    /** `handleKhaltiPayment`: calls `onKhaltiPayment` once when a date is held, never otherwise. */
    method HandleKhaltiPayment() returns (called: bool)
      ensures called <==> travelDate != ""
    {
      called := travelDate != "";
    }
  }
}
