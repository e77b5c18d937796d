/** `OrderDTO` and its `OrderStatus`, decoded from JSON. */
module OrderModels {
  import opened Wrappers
  import opened Json
  import EventModels

  /** `OrderStatus`, a `String`-backed enumeration with the same cases as `EventStatus`. */
  datatype OrderStatus = Submitted | Routed | PartiallyFilled | Filled | Cancelled | Rejected {

    /** `rawValue`: the case name, except `partially_filled`. */
    function RawValue(): (r: string)
      ensures OrderStatusFromRawValue(r) == Some(this)
    {
      match this
      case Submitted => "submitted"
      case Routed => "routed"
      case PartiallyFilled => "partially_filled"
      case Filled => "filled"
      case Cancelled => "cancelled"
      case Rejected => "rejected"
    }
  }

  /** Every case of `OrderStatus`, in declaration order. */
  const AllOrderStatuses: seq<OrderStatus> :=
    [Submitted, Routed, PartiallyFilled, Filled, Cancelled, Rejected]

  /** `OrderStatus(rawValue:)`: the case whose raw value is `raw`, if any. */
  function OrderStatusFromRawValue(raw: string): (s: Option<OrderStatus>)
    ensures s.Some? <==>
      raw in ["submitted", "routed", "partially_filled", "filled", "cancelled", "rejected"]
  {
    match raw
    case "submitted" => Some(Submitted)
    case "routed" => Some(Routed)
    case "partially_filled" => Some(PartiallyFilled)
    case "filled" => Some(Filled)
    case "cancelled" => Some(Cancelled)
    case "rejected" => Some(Rejected)
    case _ => None
  }

  /** The enumeration has exactly six cases, and their raw values are pairwise distinct. */
  lemma OrderStatusCases()
    ensures |AllOrderStatuses| == 6
    ensures forall s: OrderStatus :: s in AllOrderStatuses
    ensures forall i, j :: 0 <= i < j < 6 ==>
      AllOrderStatuses[i].RawValue() != AllOrderStatuses[j].RawValue()
  {
    forall s: OrderStatus ensures s in AllOrderStatuses {
      match s
      case Submitted => assert AllOrderStatuses[0] == s;
      case Routed => assert AllOrderStatuses[1] == s;
      case PartiallyFilled => assert AllOrderStatuses[2] == s;
      case Filled => assert AllOrderStatuses[3] == s;
      case Cancelled => assert AllOrderStatuses[4] == s;
      case Rejected => assert AllOrderStatuses[5] == s;
    }
  }

  /** Decoding inverts `rawValue`, and rejects any other string, such as a case name. */
  lemma OrderStatusRawValueInverse(raw: string)
    ensures OrderStatusFromRawValue(raw).Some? ==> OrderStatusFromRawValue(raw).value.RawValue() == raw
    ensures OrderStatusFromRawValue("partiallyFilled") == None
  {
  }

  /**
   * `OrderStatus` and `EventStatus` accept exactly the same raw strings, and
   * each string names the case in the same position of both enumerations.
   */
  lemma {:induction false} SameRawValuesAsEventStatus(raw: string)
    ensures OrderStatusFromRawValue(raw).Some? <==> EventModels.EventStatusFromRawValue(raw).Some?
    ensures forall i :: 0 <= i < 6 ==>
      AllOrderStatuses[i].RawValue() == EventModels.AllEventStatuses[i].RawValue()
  {
  }

  /** `OrderDTO`: six required properties, none optional. */
  datatype OrderDTO = OrderDTO(
    id: string,
    title: string,
    startTime: Date,
    endTime: Date,
    location: string,
    orderStatus: OrderStatus
  )

  /** The coding keys of `OrderDTO`. */
  const OrderKeys: set<string> := {"id", "title", "startTime", "endTime", "location", "orderStatus"}

  /** The `orderStatus` property, decoded through the raw values. */
  function OrderStatusProperty(members: map<string, JsonValue>): Option<OrderStatus> {
    match StringProperty(members, "orderStatus")
    case None => None
    case Some(raw) => OrderStatusFromRawValue(raw)
  }

  /**
   * The synthesized `init(from:)` of `OrderDTO` over a JSON object: every
   * property must be present and of its type; other members are ignored.
   */
  function DecodeOrderDTO(members: map<string, JsonValue>, date: JsonValue -> Option<Date>): (r: Option<OrderDTO>)
    ensures r.Some? ==> OrderKeys <= members.Keys
    ensures r.Some? ==>
      && members["id"] == JString(r.value.id)
      && members["title"] == JString(r.value.title)
      && date(members["startTime"]) == Some(r.value.startTime)
      && date(members["endTime"]) == Some(r.value.endTime)
      && members["location"] == JString(r.value.location)
      && members["orderStatus"] == JString(r.value.orderStatus.RawValue())
    ensures r.None? <==>
      || StringProperty(members, "id").None?
      || StringProperty(members, "title").None?
      || DateProperty(members, "startTime", date).None?
      || DateProperty(members, "endTime", date).None?
      || StringProperty(members, "location").None?
      || OrderStatusProperty(members).None?
  {
    var id := StringProperty(members, "id");
    var title := StringProperty(members, "title");
    var startTime := DateProperty(members, "startTime", date);
    var endTime := DateProperty(members, "endTime", date);
    var location := StringProperty(members, "location");
    var status := OrderStatusProperty(members);
    if id.Some? && title.Some? && startTime.Some? && endTime.Some? && location.Some? && status.Some? then
      OrderStatusRawValueInverse(members["orderStatus"].text);
      Some(OrderDTO(id.value, title.value, startTime.value, endTime.value, location.value, status.value))
    else
      None
  }

  /** An object missing any one of the six keys does not decode. */
  lemma {:induction false} OrderDTORequiresEveryKey(members: map<string, JsonValue>, date: JsonValue -> Option<Date>, key: string)
    requires key in OrderKeys && key !in members
    ensures DecodeOrderDTO(members, date) == None
  {
    assert !(OrderKeys <= members.Keys);
  }
}
