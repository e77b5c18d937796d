/** `EventDTO` and its `EventStatus`, decoded from JSON. */
module EventModels {
  import opened Wrappers
  import opened Json

  /** `EventStatus`, a `String`-backed enumeration. */
  datatype EventStatus = Submitted | Routed | PartiallyFilled | Filled | Cancelled | Rejected {

    /** `rawValue`: the case name, except `partially_filled`. */
    function RawValue(): (r: string)
      ensures EventStatusFromRawValue(r) == Some(this)
    {
      match this
      case Submitted => "submitted"
      case Routed => "routed"
      case PartiallyFilled => "partially_filled"
      case Filled => "filled"
      case Cancelled => "cancelled"
      case Rejected => "rejected"
    }
  }

  /** Every case of `EventStatus`, in declaration order. */
  const AllEventStatuses: seq<EventStatus> :=
    [Submitted, Routed, PartiallyFilled, Filled, Cancelled, Rejected]

  /** `EventStatus(rawValue:)`: the case whose raw value is `raw`, if any. */
  function EventStatusFromRawValue(raw: string): (s: Option<EventStatus>)
    ensures s.Some? <==>
      raw in ["submitted", "routed", "partially_filled", "filled", "cancelled", "rejected"]
  {
    match raw
    case "submitted" => Some(Submitted)
    case "routed" => Some(Routed)
    case "partially_filled" => Some(PartiallyFilled)
    case "filled" => Some(Filled)
    case "cancelled" => Some(Cancelled)
    case "rejected" => Some(Rejected)
    case _ => None
  }

  /** The enumeration has exactly six cases, and their raw values are pairwise distinct. */
  lemma EventStatusCases()
    ensures |AllEventStatuses| == 6
    ensures forall s: EventStatus :: s in AllEventStatuses
    ensures forall i, j :: 0 <= i < j < 6 ==>
      AllEventStatuses[i].RawValue() != AllEventStatuses[j].RawValue()
  {
    forall s: EventStatus ensures s in AllEventStatuses {
      match s
      case Submitted => assert AllEventStatuses[0] == s;
      case Routed => assert AllEventStatuses[1] == s;
      case PartiallyFilled => assert AllEventStatuses[2] == s;
      case Filled => assert AllEventStatuses[3] == s;
      case Cancelled => assert AllEventStatuses[4] == s;
      case Rejected => assert AllEventStatuses[5] == s;
    }
  }

  /** Decoding inverts `rawValue`: a string that decodes is the raw value of what it decodes to. */
  lemma EventStatusRawValueInverse(raw: string)
    ensures EventStatusFromRawValue(raw).Some? ==> EventStatusFromRawValue(raw).value.RawValue() == raw
  {
  }

  /** The Swift case name of the fourth case is not one of the raw values. */
  lemma EventStatusRejectsCaseName()
    ensures EventStatusFromRawValue("partiallyFilled") == None
  {
  }

  /** `EventDTO`: six required properties, none optional. */
  datatype EventDTO = EventDTO(
    id: string,
    title: string,
    startTime: Date,
    endTime: Date,
    location: string,
    eventStatus: EventStatus
  )

  /** The coding keys of `EventDTO`. */
  const EventKeys: set<string> := {"id", "title", "startTime", "endTime", "location", "eventStatus"}

  /** The `eventStatus` property, decoded through the raw values. */
  function EventStatusProperty(members: map<string, JsonValue>): Option<EventStatus> {
    match StringProperty(members, "eventStatus")
    case None => None
    case Some(raw) => EventStatusFromRawValue(raw)
  }

  /**
   * The synthesized `init(from:)` of `EventDTO` over a JSON object: every
   * property must be present and of its type; other members are ignored.
   */
  function DecodeEventDTO(members: map<string, JsonValue>, date: JsonValue -> Option<Date>): (r: Option<EventDTO>)
    ensures r.Some? ==> EventKeys <= members.Keys
    ensures r.Some? ==>
      && members["id"] == JString(r.value.id)
      && members["title"] == JString(r.value.title)
      && date(members["startTime"]) == Some(r.value.startTime)
      && date(members["endTime"]) == Some(r.value.endTime)
      && members["location"] == JString(r.value.location)
      && members["eventStatus"] == JString(r.value.eventStatus.RawValue())
    ensures r.None? <==>
      || StringProperty(members, "id").None?
      || StringProperty(members, "title").None?
      || DateProperty(members, "startTime", date).None?
      || DateProperty(members, "endTime", date).None?
      || StringProperty(members, "location").None?
      || EventStatusProperty(members).None?
  {
    var id := StringProperty(members, "id");
    var title := StringProperty(members, "title");
    var startTime := DateProperty(members, "startTime", date);
    var endTime := DateProperty(members, "endTime", date);
    var location := StringProperty(members, "location");
    var status := EventStatusProperty(members);
    if id.Some? && title.Some? && startTime.Some? && endTime.Some? && location.Some? && status.Some? then
      EventStatusRawValueInverse(members["eventStatus"].text);
      Some(EventDTO(id.value, title.value, startTime.value, endTime.value, location.value, status.value))
    else
      None
  }

  /** An object missing any one of the six keys does not decode. */
  lemma {:induction false} EventDTORequiresEveryKey(members: map<string, JsonValue>, date: JsonValue -> Option<Date>, key: string)
    requires key in EventKeys && key !in members
    ensures DecodeEventDTO(members, date) == None
  {
    assert !(EventKeys <= members.Keys);
  }
}
