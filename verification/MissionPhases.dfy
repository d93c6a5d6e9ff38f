// The mission phase table (mission/enums.py).

module MissionPhases {

  datatype Phase =
    | Registered | Queued | Starting | Running | Pausing | Paused | Stopping
    | Stopped | Succeeded | Failed | Cancelled
  {
    predicate Active() {
      Starting? || Running? || Pausing? || Paused? || Stopping?
    }

    predicate Terminal() {
      Stopped? || Succeeded? || Failed? || Cancelled?
    }
  }

  /** The phases a mission may move to from `p`. */
  function Successors(p: Phase): set<Phase> {
    match p
    case Registered => {Queued, Starting, Stopped, Cancelled, Failed}
    case Queued => {Starting, Cancelled, Stopped, Failed}
    case Starting => {Running, Stopping, Failed, Cancelled}
    case Running => {Pausing, Stopping, Succeeded, Failed, Cancelled}
    case Pausing => {Paused, Stopping, Failed, Cancelled}
    case Paused => {Running, Stopping, Failed, Cancelled}
    case Stopping => {Stopped, Succeeded, Failed, Cancelled}
    case Stopped => {Queued, Starting, Cancelled}
    case Succeeded => {Queued, Starting}
    case Failed => {Queued, Starting, Cancelled}
    case Cancelled => {Queued, Starting}
  }

  predicate Allowed(from: Phase, to: Phase) {
    to in Successors(from)
  }
}
