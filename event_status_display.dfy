/** The display title and colour of each `EventStatus`. */
module StatusDisplay {
  import opened EventModels

  /** The named colours the statuses are drawn in. */
  datatype Color = Blue | Orange | Yellow | Green | Red | Gray

  /** The status-to-title table of the documentation. */
  const TitleTable: seq<(EventStatus, string)> := [
    (Submitted, "Submitted"),
    (Routed, "Routed"),
    (PartiallyFilled, "Partially Completed"),
    (Filled, "Completed"),
    (Cancelled, "Cancelled"),
    (Rejected, "Rejected")
  ]

  /** The status-to-colour table of the documentation. */
  const ColorTable: seq<(EventStatus, Color)> := [
    (Submitted, Blue),
    (Routed, Orange),
    (PartiallyFilled, Yellow),
    (Filled, Green),
    (Cancelled, Red),
    (Rejected, Gray)
  ]

  /** `title`: the user-facing label, as the documented table gives it. */
  function Title(s: EventStatus): (t: string)
    ensures (s, t) in TitleTable
  {
    match s
    case Submitted => "Submitted"
    case Routed => "Routed"
    case PartiallyFilled => "Partially Completed"
    case Filled => "Completed"
    case Cancelled => "Cancelled"
    case Rejected => "Rejected"
  }

  /** `color`: the colour, as the documented table gives it. */
  function ColorOf(s: EventStatus): (c: Color)
    ensures (s, c) in ColorTable
  {
    match s
    case Submitted => Blue
    case Routed => Orange
    case PartiallyFilled => Yellow
    case Filled => Green
    case Cancelled => Red
    case Rejected => Gray
  }

  /** The code agrees with every row of both documented tables. */
  lemma {:induction false} MappingsMatchTables()
    ensures forall i :: 0 <= i < |TitleTable| ==> Title(TitleTable[i].0) == TitleTable[i].1
    ensures forall i :: 0 <= i < |ColorTable| ==> ColorOf(ColorTable[i].0) == ColorTable[i].1
  {
  }

  /** Different statuses get different titles and different colours. */
  lemma {:induction false} MappingsInjective(a: EventStatus, b: EventStatus)
    ensures Title(a) == Title(b) ==> a == b
    ensures ColorOf(a) == ColorOf(b) ==> a == b
  {
  }
}
