/** The badge shown for a booking's status and for its payment status on an operator's booking card. */
module BookingStatusBadge {
  import opened Text

  datatype BadgeType = BookingBadge | PaymentBadge

  const Yellow: string := "bg-yellow-100 text-yellow-800"
  const Green: string := "bg-green-100 text-green-800"
  const Red: string := "bg-red-100 text-red-800"
  const Gray: string := "bg-gray-100 text-gray-800"

  /** The text the payment badge shows: the template has no `$`, so it is this constant. */
  const PaymentPlaceholder: string := "Payment: {status}"

  /**
   * `getStatusBadgeColor`: total over all status strings. Yellow means pending
   * for both kinds; green and red mean confirmed and rejected for a booking,
   * completed and failed for a payment; everything else (cancelled included) is gray.
   */
  function BadgeColor(status: string, kind: BadgeType): (r: string)
    ensures r == Yellow || r == Green || r == Red || r == Gray
    ensures r == Yellow <==> status == "pending"
    ensures kind == BookingBadge ==> (r == Green <==> status == "confirmed") && (r == Red <==> status == "rejected")
    ensures kind == PaymentBadge ==> (r == Green <==> status == "completed") && (r == Red <==> status == "failed")
  {
    match kind
    case BookingBadge =>
      if status == "pending" then Yellow
      else if status == "confirmed" then Green
      else if status == "rejected" then Red
      else if status == "cancelled" then Gray
      else Gray
    case PaymentBadge =>
      if status == "pending" then Yellow
      else if status == "completed" then Green
      else if status == "failed" then Red
      else Gray
  }

  /** A status the badge does not know is shown in gray, whichever kind of badge it is. */
  lemma UnknownStatusIsGray(status: string, kind: BadgeType)
    requires status !in {"pending", "confirmed", "rejected", "completed", "failed"}
    ensures BadgeColor(status, kind) == Gray
  {
  }

  /** `displayText` as written: a payment badge shows the placeholder text, a booking badge the capitalised status. */
  function DisplayText(status: string, kind: BadgeType): (r: string)
    ensures kind == PaymentBadge ==> r == PaymentPlaceholder
    ensures kind == BookingBadge ==> |r| == |status|
    ensures kind == BookingBadge && status != [] ==> r[0] == UpperAscii(status[0]) && r[1..] == status[1..]
  {
    match kind
    case PaymentBadge => PaymentPlaceholder
    case BookingBadge => Capitalize(status)
  }

  /** As written, a payment badge cannot tell a completed payment from a failed one, and never names the status. */
  lemma PaymentTextIgnoresStatus(s1: string, s2: string)
    ensures DisplayText(s1, PaymentBadge) == DisplayText(s2, PaymentBadge)
    ensures DisplayText("completed", PaymentBadge) != "Payment: " + "completed"
  {
    assert DisplayText("completed", PaymentBadge)[9] == '{';
  }

  /** `displayText` as evidently intended, with the interpolation `Payment: ${status}`. */
  function IntendedDisplayText(status: string, kind: BadgeType): (r: string)
    ensures kind == PaymentBadge ==> |r| == 9 + |status| && r[..9] == "Payment: " && r[9..] == status
    ensures kind == BookingBadge ==> r == DisplayText(status, kind)
  {
    match kind
    case PaymentBadge => "Payment: " + status
    case BookingBadge => Capitalize(status)
  }

  /** The intended payment text names the status, so distinct payment statuses show distinct texts. */
  lemma IntendedPaymentTextDistinguishes(s1: string, s2: string)
    requires s1 != s2
    ensures IntendedDisplayText(s1, PaymentBadge) != IntendedDisplayText(s2, PaymentBadge)
  {
    assert IntendedDisplayText(s1, PaymentBadge)[9..] == s1;
    assert IntendedDisplayText(s2, PaymentBadge)[9..] == s2;
  }
}
