/** The command codes the bridge hands to the flight dispatcher, and the table
    that maps each script action to its (command code, pending marker) pair. */
module CommandCodes {

  /* `mavros_msgs::CommandCode` mirrors the MAV_CMD enumeration of the MAVLink
     common message set; these are the values of the entries the bridge uses. */
  const NAV_WAYPOINT: int := 16
  const NAV_RETURN_TO_LAUNCH: int := 20
  const NAV_LAND: int := 21
  const NAV_TAKEOFF: int := 22
  const CMD_COMPONENT_ARM_DISARM: int := 400

  /** The value of `cur_cmd` and `buzz_cmd` before any command, and of
      `buzz_cmd` once the dispatcher has consumed it. */
  const IDLE: int := 0

  /** A script action, as the dispatcher sees it: moveto and goto both issue `Waypoint`. */
  datatype Action = Takeoff | Land | GoHome | Waypoint | Arm | Disarm

  /** The primary command code an action writes into `cur_cmd`. */
  function Code(a: Action): int
  {
    match a
    case Takeoff => NAV_TAKEOFF
    case Land => NAV_LAND
    case GoHome => NAV_RETURN_TO_LAUNCH
    case Waypoint => NAV_WAYPOINT
    case Arm => CMD_COMPONENT_ARM_DISARM
    case Disarm => CMD_COMPONENT_ARM_DISARM + 1
  }

  /** The one-shot marker an action writes into `buzz_cmd`. */
  function Marker(a: Action): int
  {
    match a
    case Takeoff | Land | GoHome => 1
    case Waypoint => 2
    case Arm => 3
    case Disarm => 4
  }

  /** Distinct actions have distinct codes, no code is idle, disarm is arm + 1,
      and every marker is a non-idle value from 1 to 4. */
  lemma CodeTable(a: Action, b: Action)
    ensures Code(a) == Code(b) <==> a == b
    ensures Code(a) != IDLE
    ensures Code(Disarm) == Code(Arm) + 1
    ensures 1 <= Marker(a) <= 4 && Marker(a) != IDLE
  {
  }

  /** The markers tell apart exactly the classes the dispatcher handles
      differently: the three altitude-independent actions share marker 1. */
  lemma MarkerClasses(a: Action, b: Action)
    ensures Marker(a) == Marker(b) <==> a == b || (a in {Takeoff, Land, GoHome} && b in {Takeoff, Land, GoHome})
  {
  }
}
