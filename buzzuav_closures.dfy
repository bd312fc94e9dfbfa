/** The bridge as the C++ code keeps it: one object whose fields are the
    static variables of `buzzuav_closures`, one method per closure, accessor
    and setter, and one function per read-only publisher. Each method that
    changes state is proved to change exactly the fields its `modifies`
    clause names, in the way a CommandSpec function describes: the one of the
    same name, or `Issue` for land, gohome, arm and disarm. The plain reads
    `getgoto` and `getcmd` change nothing. */
module BuzzuavClosures {
  import opened BuzzValues
  import CC = CommandCodes
  import CommandSpec

  class UavState {
    // The fixed-size static buffers.
    const gotoPos: array<real>
    const rcGotoPos: array<real>
    const batt: array<real>
    const obst: array<real>
    const curPos: array<real>
    // The static scalars.
    var status: Byte
    var curCmd: int
    var rcCmd: int
    var buzzCmd: int
    var height: real
    // The floating-point library routines the closures call.
    const numerics: CommandSpec.Numerics

    /** The buffers have their declared sizes and are five distinct arrays. */
    ghost predicate Valid()
    {
      gotoPos.Length == 3 && rcGotoPos.Length == 3 && batt.Length == 3 &&
      obst.Length == 5 && curPos.Length == 3 &&
      gotoPos != rcGotoPos && gotoPos != batt && gotoPos != curPos &&
      rcGotoPos != batt && rcGotoPos != curPos && batt != curPos
    }

    /** The value of all the static variables together. */
    ghost function Abs(): CommandSpec.State
      requires Valid()
      reads this, gotoPos, rcGotoPos, batt, obst, curPos
    {
      CommandSpec.State(gotoPos[..], rcGotoPos[..], batt[..], obst[..], curPos[..],
                        status, curCmd, rcCmd, buzzCmd, height)
    }

    /** Static storage starts out zero. */
    constructor (numerics: CommandSpec.Numerics)
      ensures Valid() && Abs() == CommandSpec.Initial && this.numerics == numerics
      ensures fresh(gotoPos) && fresh(rcGotoPos) && fresh(batt) && fresh(obst) && fresh(curPos)
    {
      gotoPos := new real[] [0.0, 0.0, 0.0];
      rcGotoPos := new real[] [0.0, 0.0, 0.0];
      batt := new real[] [0.0, 0.0, 0.0];
      obst := new real[] [0.0, 0.0, 0.0, 0.0, 0.0];
      curPos := new real[] [0.0, 0.0, 0.0];
      status := 0;
      curCmd := CC.IDLE;
      rcCmd := 0;
      buzzCmd := CC.IDLE;
      height := 0.0;
      this.numerics := numerics;
    }

    /*----------------------------------------------------------------------
      Geodesy helper
     ----------------------------------------------------------------------*/

    /** `gps_from_rb(range, bearing, out)`: writes the destination into `out`,
        with the desired height as its altitude. */
    method GpsFromRb(range: real, bearing: real, out: array<real>)
      requires Valid() && out.Length == 3
      modifies out
      ensures out[..] == CommandSpec.GpsFromRb(numerics, old(curPos[..]), height, range, bearing)
      ensures out[2] == height
    {
      var lat := curPos[0];
      var lon := curPos[1];
      var horizontal := numerics.forward(lat, lon, range, bearing);
      out[0] := horizontal.0;
      out[1] := horizontal.1;
      out[2] := height;
    }

    /*----------------------------------------------------------------------
      Script-callable closures
     ----------------------------------------------------------------------*/

    /** `buzzuav_moveto(dx, dy)`. */
    method Moveto(args: seq<BuzzObj>) returns (r: Outcome)
      requires Valid()
      modifies gotoPos, this`curCmd, this`buzzCmd
      ensures r == CommandSpec.Moveto(numerics, old(Abs()), args).outcome
      ensures Abs() == CommandSpec.Moveto(numerics, old(Abs()), args).next
    {
      if |args| != 2 { return Fail(WrongArgCount(2, |args|)); }
      if !args[0].FloatObj? { return Fail(NotAFloat(1)); }
      if !args[1].FloatObj? { return Fail(NotAFloat(2)); }
      var dy := args[1].f;
      var dx := args[0].f;
      var d := CommandSpec.Range(numerics, dx, dy);
      var b := CommandSpec.Bearing(numerics, dx, dy);
      GpsFromRb(d, b, gotoPos);
      curCmd := CC.NAV_WAYPOINT;
      buzzCmd := 2;
      r := Pass;
    }

    /** `buzzuav_goto()`. */
    method Goto()
      requires Valid()
      modifies rcGotoPos, gotoPos, this`curCmd, this`buzzCmd
      ensures Abs() == CommandSpec.Goto(old(Abs()))
      ensures gotoPos[..] == rcGotoPos[..] && rcGotoPos[2] == height
    {
      rcGotoPos[2] := height;
      SetGoto(rcGotoPos);
      curCmd := CC.NAV_WAYPOINT;
      buzzCmd := 2;
    }

    /** `buzzuav_arm()`. */
    method Arm()
      requires Valid()
      modifies this`curCmd, this`buzzCmd
      ensures Abs() == CommandSpec.Issue(old(Abs()), CC.Arm)
    {
      curCmd := CC.CMD_COMPONENT_ARM_DISARM;
      buzzCmd := 3;
    }

    /** `buzzuav_disarm()`. */
    method Disarm()
      requires Valid()
      modifies this`curCmd, this`buzzCmd
      ensures Abs() == CommandSpec.Issue(old(Abs()), CC.Disarm)
    {
      curCmd := CC.CMD_COMPONENT_ARM_DISARM + 1;
      buzzCmd := 4;
    }

    /** `buzzuav_takeoff(altitude)`. */
    method Takeoff(args: seq<BuzzObj>) returns (r: Outcome)
      requires Valid()
      modifies gotoPos, this`height, this`curCmd, this`buzzCmd
      ensures r == CommandSpec.Takeoff(old(Abs()), args).outcome
      ensures Abs() == CommandSpec.Takeoff(old(Abs()), args).next
    {
      if |args| != 1 { return Fail(WrongArgCount(1, |args|)); }
      if !args[0].FloatObj? { return Fail(NotAFloat(1)); }
      gotoPos[2] := args[0].f;
      height := gotoPos[2];
      curCmd := CC.NAV_TAKEOFF;
      buzzCmd := 1;
      r := Pass;
    }

    /** `buzzuav_land()`. */
    method Land()
      requires Valid()
      modifies this`curCmd, this`buzzCmd
      ensures Abs() == CommandSpec.Issue(old(Abs()), CC.Land)
    {
      curCmd := CC.NAV_LAND;
      buzzCmd := 1;
    }

    /** `buzzuav_gohome()`. */
    method Gohome()
      requires Valid()
      modifies this`curCmd, this`buzzCmd
      ensures Abs() == CommandSpec.Issue(old(Abs()), CC.GoHome)
    {
      curCmd := CC.NAV_RETURN_TO_LAUNCH;
      buzzCmd := 1;
    }

    /*----------------------------------------------------------------------
      Dispatcher-side accessors and telemetry setters
     ----------------------------------------------------------------------*/

    /** `getgoto()`: the goal buffer itself, which the caller reads in place. */
    method GetGoto() returns (p: array<real>)
      requires Valid()
      ensures p == gotoPos && p.Length == 3
    {
      p := gotoPos;
    }

    /** `getcmd()`: the primary command code; it is not cleared. */
    method GetCmd() returns (c: int)
      ensures c == curCmd
    {
      c := curCmd;
    }

    /** `set_goto(pos)`; `pos` may be one of the object's own buffers. */
    method SetGoto(pos: array<real>)
      requires Valid() && pos.Length >= 3
      modifies gotoPos
      ensures Abs() == CommandSpec.SetGoto(old(Abs()), old(pos[..]))
    {
      gotoPos[0] := pos[0];
      gotoPos[1] := pos[1];
      gotoPos[2] := pos[2];
    }

    /** `bzz_cmd()`: read the pending marker, then clear it. */
    method BzzCmd() returns (cmd: int)
      requires Valid()
      modifies this`buzzCmd
      ensures (Abs(), cmd) == CommandSpec.BzzCmd(old(Abs()))
    {
      cmd := buzzCmd;
      buzzCmd := CC.IDLE;
    }

    /** `rc_set_goto(pos)`. */
    method RcSetGoto(pos: array<real>)
      requires Valid() && pos.Length >= 3
      modifies rcGotoPos
      ensures Abs() == CommandSpec.RcSetGoto(old(Abs()), old(pos[..]))
    {
      rcGotoPos[0] := pos[0];
      rcGotoPos[1] := pos[1];
      rcGotoPos[2] := pos[2];
    }

    /** `rc_call(rc_cmd_in)`. */
    method RcCall(rcCmdIn: int)
      requires Valid()
      modifies this`rcCmd
      ensures Abs() == CommandSpec.RcCall(old(Abs()), rcCmdIn)
    {
      rcCmd := rcCmdIn;
    }

    /** `set_obstacle_dist(dist)`: copies the five ranges in index order. */
    method SetObstacleDist(dist: array<real>)
      requires Valid() && dist.Length >= 5
      modifies obst
      ensures obst[..] == old(dist[..5])
      ensures Abs() == CommandSpec.SetObstacleDist(old(Abs()), old(dist[..]))
    {
      for i := 0 to 5
        invariant obst[..i] == old(dist[..i])
        invariant forall k :: i <= k < dist.Length ==> dist[k] == old(dist[k])
      {
        obst[i] := dist[i];
      }
    }

    /** `set_battery(voltage, current, remaining)`. */
    method SetBattery(voltage: real, current: real, remaining: real)
      requires Valid()
      modifies batt
      ensures Abs() == CommandSpec.SetBattery(old(Abs()), voltage, current, remaining)
    {
      batt[0] := voltage;
      batt[1] := current;
      batt[2] := remaining;
    }

    /** `set_currentpos(latitude, longitude, altitude)`. */
    method SetCurrentPos(latitude: real, longitude: real, altitude: real)
      requires Valid()
      modifies curPos
      ensures Abs() == CommandSpec.SetCurrentPos(old(Abs()), latitude, longitude, altitude)
    {
      curPos[0] := latitude;
      curPos[1] := longitude;
      curPos[2] := altitude;
    }

    /** `flight_status_update(state)`. */
    method FlightStatusUpdate(state: Byte)
      requires Valid()
      modifies this`status
      ensures Abs() == CommandSpec.FlightStatusUpdate(old(Abs()), state)
    {
      status := state;
    }

    /*----------------------------------------------------------------------
      Telemetry publishers
     ----------------------------------------------------------------------*/

    /** `buzzuav_update_battery`: the global `battery` becomes
        {voltage, current, capacity}; no other global and no field changes. */
    function UpdateBattery(g: Globals): (r: Globals)
      requires Valid()
      reads batt
      ensures r.Keys == g.Keys + {"battery"}
      ensures r["battery"] == TableObj(map["voltage" := FloatObj(batt[0]), "current" := FloatObj(batt[1]),
                                           "capacity" := FloatObj(batt[2])])
      ensures forall k :: k in g && k != "battery" ==> r[k] == g[k]
    {
      Store(g, "battery", CommandSpec.BatteryTable(batt[..]))
    }

    /** `buzzuav_update_currentpos`: the global `position` becomes
        {latitude, longitude, altitude} of the current position. */
    function UpdateCurrentPos(g: Globals): (r: Globals)
      requires Valid()
      reads curPos
      ensures r.Keys == g.Keys + {"position"}
      ensures r["position"] == TableObj(map["latitude" := FloatObj(curPos[0]), "longitude" := FloatObj(curPos[1]),
                                            "altitude" := FloatObj(curPos[2])])
      ensures forall k :: k in g && k != "position" ==> r[k] == g[k]
    {
      Store(g, "position", CommandSpec.PositionTable(curPos[..]))
    }

    /** `buzzuav_update_obstacle`: the global `obstacle` becomes
        {bottom, front, right, back, left}. */
    function UpdateObstacle(g: Globals): (r: Globals)
      requires Valid()
      reads obst
      ensures r.Keys == g.Keys + {"obstacle"}
      ensures r["obstacle"] == TableObj(map["bottom" := FloatObj(obst[0]), "front" := FloatObj(obst[1]),
                                            "right" := FloatObj(obst[2]), "back" := FloatObj(obst[3]),
                                            "left" := FloatObj(obst[4])])
      ensures forall k :: k in g && k != "obstacle" ==> r[k] == g[k]
    {
      Store(g, "obstacle", CommandSpec.ObstacleTable(obst[..]))
    }

    /** `buzzuav_update_flight_status`: `rc_cmd` is put into the table before
        it is cleared, so the table reports the pending remote-control command. */
    method UpdateFlightStatus(g: Globals) returns (g': Globals)
      requires Valid()
      modifies this`rcCmd
      ensures (Abs(), g') == CommandSpec.UpdateFlightStatus(old(Abs()), g)
    {
      var flight := PutAll(map[], [("rc_cmd", IntObj(rcCmd))]);
      PutAllCons(map[], "rc_cmd", IntObj(rcCmd), []);
      rcCmd := 0;
      flight := PutAll(flight, [("status", IntObj(status as int))]);
      PutAllCons(map["rc_cmd" := IntObj(old(rcCmd))], "status", IntObj(status as int), []);
      assert flight == CommandSpec.FlightTable(old(rcCmd), status);
      assert Abs() == old(Abs()).(rcCmd := 0);
      g' := Store(g, "flight", flight);
      g' := Store(g', "rc_goto", CommandSpec.PositionTable(rcGotoPos[..]));
    }
  }

  /** What a dispatcher and a script can rely on from the contracts alone. */
  method Scenario(n: CommandSpec.Numerics)
  {
    var uav := new UavState(n);
    // Arm then disarm: the second command overwrites the first.
    uav.Arm();
    uav.Disarm();
    var code := uav.GetCmd();
    var marker := uav.BzzCmd();
    assert code == CC.CMD_COMPONENT_ARM_DISARM + 1 && marker == 4;
    // The marker is one-shot.
    marker := uav.BzzCmd();
    assert marker == CC.IDLE;
    // A rejected takeoff changes nothing.
    var r := uav.Takeoff([]);
    assert r == Fail(WrongArgCount(1, 0));
    code := uav.GetCmd();
    assert code == CC.CMD_COMPONENT_ARM_DISARM + 1;
    // The remote-control command is reported once.
    uav.RcCall(5);
    var g := uav.UpdateFlightStatus(map[]);
    assert g["flight"] == TableObj(map["rc_cmd" := IntObj(5), "status" := IntObj(0)]);
    g := uav.UpdateFlightStatus(g);
    assert g["flight"] == TableObj(map["rc_cmd" := IntObj(0), "status" := IntObj(0)]);
    // A battery update is published as given.
    uav.SetBattery(11.1, 2.0, 87.5);
    g := uav.UpdateBattery(g);
    assert g["battery"] == TableObj(map["voltage" := FloatObj(11.1), "current" := FloatObj(2.0),
                                        "capacity" := FloatObj(87.5)]);
  }
}
