/** DeliveryItemStatus.java: the status of one order inside a delivery. */
module DeliveryItemStatuses {
  datatype DeliveryItemStatus = Ready | PickedUp | Delivered

  /** Position along READY -> PICKED_UP -> DELIVERED. */
  function Rank(s: DeliveryItemStatus): nat {
    match s
    case Ready => 0
    case PickedUp => 1
    case Delivered => 2
  }

  /** `canTransitionTo`: an item moves exactly one step forward along the chain. */
  function CanTransitionTo(from: DeliveryItemStatus, to: DeliveryItemStatus): (r: bool)
    ensures r <==> Rank(to) == Rank(from) + 1
  {
    match from
    case Ready => to == PickedUp
    case PickedUp => to == Delivered
    case Delivered => false
  }

  /** The end of the chain, out of which nothing moves. */
  function IsTerminal(s: DeliveryItemStatus): (r: bool)
    ensures r <==> Rank(s) == Rank(Delivered)
    ensures r ==> forall t :: !CanTransitionTo(s, t)
  {
    s == Delivered
  }

  /** The two guards are the transition table read at PICKED_UP and DELIVERED. */
  function CanMarkPickedUp(s: DeliveryItemStatus): (r: bool)
    ensures r <==> CanTransitionTo(s, PickedUp)
  {
    s == Ready
  }

  function CanMarkDelivered(s: DeliveryItemStatus): (r: bool)
    ensures r <==> CanTransitionTo(s, Delivered)
  {
    s == PickedUp
  }

  /** The terminal status is the one with no transition out. */
  lemma {:induction false} TerminalIffNoMoveOut(s: DeliveryItemStatus)
    ensures IsTerminal(s) <==> forall t :: !CanTransitionTo(s, t)
  {
    match s
    case Ready => assert CanTransitionTo(s, PickedUp);
    case PickedUp => assert CanTransitionTo(s, Delivered);
    case Delivered =>
  }
}
