/** The Accept and Reject buttons an operator sees on a booking card. */
module BookingCustomerActions {

  datatype Decision = Accept | Reject

  /** A button: which decision it is, the `onUpdateStatus(bookingId, newStatus)` call it makes, and whether it is enabled. */
  datatype ActionButton = ActionButton(decision: Decision, bookingId: nat, newStatus: string, enabled: bool)

  /**
   * The buttons rendered for a card: both exactly when the status is `"pending"`,
   * each requesting this card's booking id, Accept with `"confirmed"` and Reject
   * with `"rejected"`, and both disabled while the card is updating.
   */
  function OfferedActions(bookingId: nat, status: string, isUpdating: bool): (r: seq<ActionButton>)
    ensures r != [] <==> status == "pending"
    ensures forall a :: a in r ==> a.bookingId == bookingId && a.enabled == !isUpdating
    ensures forall a :: a in r ==> (a.decision == Accept ==> a.newStatus == "confirmed") && (a.decision == Reject ==> a.newStatus == "rejected")
    ensures status == "pending" ==> exists a, b :: a in r && b in r && a.decision == Accept && b.decision == Reject
  {
    if status == "pending" then
      [ActionButton(Accept, bookingId, "confirmed", !isUpdating), ActionButton(Reject, bookingId, "rejected", !isUpdating)]
    else []
  }

  /** The status changes an operator may make from the booking list. */
  predicate OperatorTransition(from: string, to: string) {
    from == "pending" && (to == "confirmed" || to == "rejected")
  }

  /**
   * An enabled button of a card with status `from` can request `to` exactly when
   * the card is not updating and `from` to `to` is pending to confirmed or
   * pending to rejected: no other status offers anything.
   */
  lemma ReachableTransitions(bookingId: nat, from: string, to: string, isUpdating: bool)
    ensures (exists a :: a in OfferedActions(bookingId, from, isUpdating) && a.enabled && a.newStatus == to)
            <==> !isUpdating && OperatorTransition(from, to)
  {
    var r := OfferedActions(bookingId, from, isUpdating);
    if !isUpdating && OperatorTransition(from, to) {
      if to == "confirmed" {
        assert r[0] in r && r[0].enabled && r[0].newStatus == to;
      } else {
        assert r[1] in r && r[1].enabled && r[1].newStatus == to;
      }
    }
  }
}
