/** Rooms as the floor and maintenance code sees them. The room class itself
    (its sensor list, hazard evaluator and state derivation) lies outside
    this model; only the attributes the modelled code reads or writes are
    kept. */
module Rooms {
  import opened Wrappers

  datatype RoomType = Study | Office | Laboratory

  /** The four states a room reports. */
  datatype RoomState = Error | Evacuate | Maintenance | Open

  /** Smallest area a room may have (Room.getMinArea). */
  const MinArea: real := 5.0

  function TypeName(t: RoomType): string
  {
    match t
    case Study => "STUDY"
    case Office => "OFFICE"
    case Laboratory => "LABORATORY"
  }

  /** RoomType.valueOf: the enum constant with exactly this name. */
  function RoomTypeNamed(name: string): (r: Option<RoomType>)
    ensures r.Some? ==> TypeName(r.value) == name
    ensures r.None? ==> forall t: RoomType :: TypeName(t) != name
  {
    if name == "STUDY" then Some(Study)
    else if name == "OFFICE" then Some(Office)
    else if name == "LABORATORY" then Some(Laboratory)
    else None
  }

  /** A room of a floor. Its number, type and area never change; the
      maintenance and fire-drill flags are set by the maintenance schedule
      and by fire drills. */
  class Room {
    const number: int
    const kind: RoomType
    const area: real
    var maintenance: bool
    var fireDrill: bool

    constructor (number: int, kind: RoomType, area: real)
      ensures this.number == number && this.kind == kind && this.area == area
      ensures !maintenance && !fireDrill
    {
      this.number := number;
      this.kind := kind;
      this.area := area;
      maintenance := false;
      fireDrill := false;
    }
  }
}
