/** The order entity of internal/domain/order: statuses, history records, packaging and the
    methods that move an order from one status to the next. */
module Domain {

  datatype Option<+T> = None | Some(value: T)

  /** A `time.Time` as the nanoseconds since Go's zero time. */
  type Time = nat

  const ZERO_TIME: Time := 0
  const DAY: Time := 86_400_000_000_000
  const DAYS_FOR_REFUNDING: nat := 2

  /** `NoStatus` is the source's "none", `Expired` its "storage_ended". */
  datatype Status = NoStatus | Received | Returned | Delivered | Refunded | Expired

  /** The texts of OrderStatusDescription, by name; `NoText` is the empty string. */
  datatype Text = ReceivedText | RefundedText | DeliveredText | ExpiredText | NoText

  function Description(status: Status): Text {
    match status
    case Received => ReceivedText
    case Refunded => RefundedText
    case Delivered => DeliveredText
    case Expired => ExpiredText
    case NoStatus => NoText
    case Returned => NoText
  }

  datatype Record = Record(timestamp: Time, status: Status, description: Text)

  function NewRecord(status: Status, now: Time): Record {
    Record(now, status, Description(status))
  }

  datatype OrderParams = OrderParams(recipientId: int, expirationDate: Time, weight: real, worth: real)

  /** The columns of a row of `orders` other than its primary key. */
  datatype OrderRow = OrderRow(
    recipientId: int, expirationDate: Time,
    deliveredDate: Option<Time>, refundedDate: Option<Time>, returnedDate: Option<Time>,
    status: Status, weight: real, worth: real)

  /** What an `Order` object holds: what is serialised to JSON and returned to callers. */
  datatype OrderData = OrderData(id: nat, row: OrderRow, history: seq<Record>)

  /** The packaging type strings the service knows; every other string is `Other`. */
  datatype Packaging = Box | Bag | Membrana | Other

  /** The strategy and decorator arithmetic of ApplyPackaging; None is the validation error. */
  function Package(packaging: Packaging, membrana: bool, weight: real, worth: real): Option<real> {
    var extra := if membrana && !packaging.Membrana? then 1.0 else 0.0;
    match packaging
    case Membrana => Some(worth + 1.0 + extra)
    case Bag => if weight > 10.0 then None else Some(worth + 5.0 + extra)
    case Box => if weight > 20.0 then None else Some(worth + 20.0 + extra)
    case Other => if weight > 20.0 then None else Some(worth + 20.0 + extra)
  }

  class Order {
    var id: nat
    var recipientId: int
    var expirationDate: Time
    var deliveredDate: Option<Time>
    var refundedDate: Option<Time>
    var returnedDate: Option<Time>
    var status: Status
    var history: seq<Record>
    var weight: real
    var worth: real

    function Row(): OrderRow
      reads this
    {
      OrderRow(recipientId, expirationDate, deliveredDate, refundedDate, returnedDate, status, weight, worth)
    }

    function Data(): OrderData
      reads this
    {
      OrderData(id, Row(), history)
    }

    constructor New(params: OrderParams)
      ensures Data() == OrderData(0, OrderRow(params.recipientId, params.expirationDate, None, None, None,
                                              NoStatus, params.weight, params.worth), [])
    {
      id, history, status := 0, [], NoStatus;
      recipientId, expirationDate := params.recipientId, params.expirationDate;
      deliveredDate, refundedDate, returnedDate := None, None, None;
      weight, worth := params.weight, params.worth;
    }

    /** The DTO-to-model transform of struct.go: nullable columns become optional dates. */
    constructor FromRow(key: nat, row: OrderRow)
      ensures Data() == OrderData(key, row, [])
    {
      id, history, status := key, [], row.status;
      recipientId, expirationDate := row.recipientId, row.expirationDate;
      deliveredDate, refundedDate, returnedDate := None, None, None;
      weight, worth := row.weight, row.worth;
      if row.deliveredDate.Some? { deliveredDate := Some(row.deliveredDate.value); }
      if row.refundedDate.Some? { refundedDate := Some(row.refundedDate.value); }
      if row.returnedDate.Some? { returnedDate := Some(row.returnedDate.value); }
    }

    predicate IsReceived()
      reads this
    {
      status == Received
    }

    predicate IsDelivered()
      reads this
    {
      status == Delivered
    }

    predicate IsExpired(now: Time)
      reads this
    {
      expirationDate < now
    }

    /** The two-day window is measured from the delivery date to itself, so it never closes. */
    predicate CanBeRefunded()
      requires IsDelivered() ==> deliveredDate.Some?
      reads this
      ensures CanBeRefunded() <==> status == Delivered
    {
      IsDelivered() &&
      var refundExpirationDate := deliveredDate.value + DAYS_FOR_REFUNDING * DAY;
      deliveredDate.value < refundExpirationDate
    }

    method SetStatus(s: Status)
      modifies this`status
      ensures Data() == old(Data()).(row := old(Row()).(status := s))
    {
      status := s;
    }

    method Receive()
      modifies this`status
      ensures Data() == old(Data()).(row := old(Row()).(status := Received))
    {
      SetStatus(Received);
    }

    method Deliver(now: Time)
      modifies this`status, this`deliveredDate
      ensures Data() == old(Data()).(row := old(Row()).(status := Delivered, deliveredDate := Some(now)))
    {
      deliveredDate := Some(now);
      SetStatus(Delivered);
    }

    method Refund(now: Time)
      modifies this`status, this`refundedDate
      ensures Data() == old(Data()).(row := old(Row()).(status := Refunded, refundedDate := Some(now)))
    {
      refundedDate := Some(now);
      SetStatus(Refunded);
    }

    method Expire()
      modifies this`status
      ensures Data() == old(Data()).(row := old(Row()).(status := Expired))
    {
      SetStatus(Expired);
    }

    method ApplyPackaging(packaging: Packaging, membrana: bool) returns (ok: bool)
      modifies this`worth
      ensures ok == Package(packaging, membrana, old(weight), old(worth)).Some?
      ensures Data() == if ok
                        then old(Data()).(row := old(Row()).(worth :=
                               Package(packaging, membrana, old(weight), old(worth)).value))
                        else old(Data())
    {
      var charged := Package(packaging, membrana, weight, worth);
      ok := charged.Some?;
      if ok { worth := charged.value; }
    }
  }
}
