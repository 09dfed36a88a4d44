/** The two closed string enumerations of the order event. */
module Enums {
  import opened Wrappers

  datatype OrderStatus = Created | Processing | Paid | Fulfilled | Cancelled

  datatype DeliveryMethod = Pickup | Courier | Cdek

  /** The wire spelling of a status. */
  function StatusName(s: OrderStatus): string {
    match s
    case Created => "created"
    case Processing => "processing"
    case Paid => "paid"
    case Fulfilled => "fulfilled"
    case Cancelled => "cancelled"
  }

  /** The wire spelling of a delivery method. */
  function DeliveryName(d: DeliveryMethod): string {
    match d
    case Pickup => "pickup"
    case Courier => "courier"
    case Cdek => "cdek"
  }

  /** Literal validation of a status string: accepts exactly the five names. */
  function ParseStatus(name: string): (r: Option<OrderStatus>)
    ensures r.Some? <==> name in {"created", "processing", "paid", "fulfilled", "cancelled"}
    ensures r.Some? ==> StatusName(r.value) == name
  {
    if name == "created" then Some(Created)
    else if name == "processing" then Some(Processing)
    else if name == "paid" then Some(Paid)
    else if name == "fulfilled" then Some(Fulfilled)
    else if name == "cancelled" then Some(Cancelled)
    else None
  }

  /** Literal validation of a delivery method: accepts exactly the three names. */
  function ParseDelivery(name: string): (r: Option<DeliveryMethod>)
    ensures r.Some? <==> name in {"pickup", "courier", "cdek"}
    ensures r.Some? ==> DeliveryName(r.value) == name
  {
    if name == "pickup" then Some(Pickup)
    else if name == "courier" then Some(Courier)
    else if name == "cdek" then Some(Cdek)
    else None
  }

  lemma StatusRoundTrip(s: OrderStatus)
    ensures ParseStatus(StatusName(s)) == Some(s)
  {
  }

  lemma DeliveryRoundTrip(d: DeliveryMethod)
    ensures ParseDelivery(DeliveryName(d)) == Some(d)
  {
  }

  /** Distinct members have distinct values. */
  lemma StatusNameInjective(a: OrderStatus, b: OrderStatus)
    requires StatusName(a) == StatusName(b)
    ensures a == b
  {
  }

  lemma DeliveryNameInjective(a: DeliveryMethod, b: DeliveryMethod)
    requires DeliveryName(a) == DeliveryName(b)
    ensures a == b
  {
  }
}
