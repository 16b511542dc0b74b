/** The order state machine: which status changes are legal. */
module StateMachine {
  import opened Types

  /** The table of legal transitions. `None` as source is "no order yet". A source
      without an entry (the result `None`) is terminal. */
  function LegalNext(from: Option<OrderStatus>): Option<set<OrderStatus>> {
    match from
    case None => Some({PendingNew})
    case Some(PendingNew) =>
      Some({Acknowledged, Rejected, Cancelled, PartiallyFilled, Filled})
    case Some(Acknowledged) =>
      Some({PartiallyFilled, Filled, PendingCancel, Cancelled, Expired, PendingAmend})
    case Some(PartiallyFilled) =>
      Some({PartiallyFilled, Filled, PendingCancel, Cancelled, Expired, PendingAmend})
    case Some(PendingCancel) =>
      Some({Cancelled, PartiallyFilled, Filled, Acknowledged})
    case Some(PendingAmend) =>
      Some({Acknowledged, PartiallyFilled, Filled, Cancelled, Rejected, PendingCancel})
    case Some(_) => None
  }

  predicate IsTerminal(status: OrderStatus) {
    LegalNext(Some(status)).None?
  }

  /** False exactly where `validate_transition` raises. */
  predicate Legal(from: OrderStatus, to: OrderStatus) {
    match LegalNext(Some(from))
    case None => false
    case Some(next) => to in next
  }

  ghost predicate LegalPath(path: seq<OrderStatus>) {
    forall i :: 0 <= i < |path| - 1 ==> Legal(path[i], path[i + 1])
  }

  /** Along any legal history, a terminal status can only be the last one and
      PENDING_NEW can only be the first one. */
  lemma {:induction false} LegalPathEndpoints(path: seq<OrderStatus>, i: nat)
    requires LegalPath(path) && i < |path|
    ensures IsTerminal(path[i]) ==> i == |path| - 1
    ensures path[i] == PendingNew ==> i == 0
  {
    if i < |path| - 1 {
      assert Legal(path[i], path[i + 1]);
    }
    if 0 < i {
      assert Legal(path[i - 1], path[i - 1 + 1]);
    }
  }

  /** Every live order can be filled, and can be killed by the venue, in one move:
      the two moves a venue may force on the OMS at any time. */
  lemma {:induction false} LiveOrdersAcceptVenueFate(status: OrderStatus)
    ensures !IsTerminal(status) <==> Legal(status, Filled)
    ensures !IsTerminal(status) <==> Legal(status, PartiallyFilled)
    ensures !IsTerminal(status) <==> Legal(status, Cancelled)
  {
    match status {
      case PendingNew =>
      case Acknowledged =>
      case PartiallyFilled =>
      case PendingCancel =>
      case PendingAmend =>
      case _ =>
    }
  }

  /** A cancel can be requested exactly from the live statuses other than
      PENDING_NEW and PENDING_CANCEL; in particular never before the first ack or fill. */
  lemma {:induction false} CancelNeedsAnAckedOrder(status: OrderStatus)
    ensures Legal(status, PendingCancel) <==>
            status in {Acknowledged, PartiallyFilled, PendingAmend}
    ensures Legal(status, PendingAmend) <==> status in {Acknowledged, PartiallyFilled}
  {
  }
}
