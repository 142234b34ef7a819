/** DeliveryStatus.java: the lifecycle of a delivery batch. */
module DeliveryStatuses {
  datatype DeliveryStatus = Created | Assigned | PickedUp | InTransit | Delivered | Completed | Cancelled

  /** Position along CREATED -> ASSIGNED -> PICKED_UP -> IN_TRANSIT -> DELIVERED -> COMPLETED;
      CANCELLED is off the chain. */
  function Rank(s: DeliveryStatus): nat {
    match s
    case Created => 0
    case Assigned => 1
    case PickedUp => 2
    case InTransit => 3
    case Delivered => 4
    case Completed => 5
    case Cancelled => 6
  }

  /** `canTransitionTo`: the documented chain, one step at a time, plus cancellation from CREATED or
      ASSIGNED only. */
  function CanTransitionTo(from: DeliveryStatus, to: DeliveryStatus): (r: bool)
    ensures r <==> || (to != Cancelled && from != Cancelled && Rank(to) == Rank(from) + 1)
                   || (to == Cancelled && Rank(from) <= 1)
  {
    match from
    case Created => to == Assigned || to == Cancelled
    case Assigned => to == PickedUp || to == Cancelled
    case PickedUp => to == InTransit
    case InTransit => to == Delivered
    case Delivered => to == Completed
    case Completed => false
    case Cancelled => false
  }

  /** The end of the chain and the cancelled status, out of which nothing moves. */
  function IsTerminal(s: DeliveryStatus): (r: bool)
    ensures r <==> Rank(s) >= Rank(Completed)
    ensures r ==> forall t :: !CanTransitionTo(s, t)
  {
    s == Completed || s == Cancelled
  }

  /** The three statuses strictly between CREATED and DELIVERED along the chain. */
  function IsActive(s: DeliveryStatus): (r: bool)
    ensures r <==> Rank(Created) < Rank(s) < Rank(Delivered)
  {
    s == Assigned || s == PickedUp || s == InTransit
  }

  /** Each `canX` guard is the transition table read at the status its operation moves to. */
  function CanAssignRider(s: DeliveryStatus): (r: bool)
    ensures r <==> CanTransitionTo(s, Assigned)
  {
    s == Created
  }

  function CanCancel(s: DeliveryStatus): (r: bool)
    ensures r <==> CanTransitionTo(s, Cancelled)
  {
    s == Created || s == Assigned
  }

  function CanMarkPickedUp(s: DeliveryStatus): (r: bool)
    ensures r <==> CanTransitionTo(s, PickedUp)
  {
    s == Assigned
  }

  function CanMarkInTransit(s: DeliveryStatus): (r: bool)
    ensures r <==> CanTransitionTo(s, InTransit)
  {
    s == PickedUp
  }

  function CanMarkDelivered(s: DeliveryStatus): (r: bool)
    ensures r <==> CanTransitionTo(s, Delivered)
  {
    s == InTransit
  }

  function CanComplete(s: DeliveryStatus): (r: bool)
    ensures r <==> CanTransitionTo(s, Completed)
  {
    s == Delivered
  }

  /** Terminal means no transition out: every other status has a move. */
  lemma {:induction false} TerminalIffNoMoveOut(s: DeliveryStatus)
    ensures IsTerminal(s) <==> forall t :: !CanTransitionTo(s, t)
  {
    match s
    case Created => assert CanTransitionTo(s, Assigned);
    case Assigned => assert CanTransitionTo(s, PickedUp);
    case PickedUp => assert CanTransitionTo(s, InTransit);
    case InTransit => assert CanTransitionTo(s, Delivered);
    case Delivered => assert CanTransitionTo(s, Completed);
    case Completed =>
    case Cancelled =>
  }

  /** Active and terminal never overlap, and CREATED and DELIVERED are neither. */
  lemma ActiveAndTerminalAreDisjoint(s: DeliveryStatus)
    ensures !(IsActive(s) && IsTerminal(s))
    ensures !IsActive(s) && !IsTerminal(s) <==> s == Created || s == Delivered
  {
  }
}
