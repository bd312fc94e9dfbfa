/** The command state of the UAV bridge as a value, and every operation on it
    as a function from the old state to the new one. The class in module
    BuzzuavClosures keeps the same state in fields and arrays; each of its
    state-changing methods is proved to have the effect of a function here:
    the one of the same name, or `Issue` for land, gohome, arm and disarm. */
module CommandSpec {
  import opened BuzzValues
  import CC = CommandCodes

  /** A position (latitude, longitude, altitude), a battery reading
      (voltage, current, remaining capacity) or any other three-value buffer. */
  type Triple = p: seq<real> | |p| == 3 witness [0.0, 0.0, 0.0]

  /** The five obstacle ranges: bottom, front, right, back, left. */
  type ObstacleRanges = p: seq<real> | |p| == 5 witness [0.0, 0.0, 0.0, 0.0, 0.0]

  /** The floating-point library routines the bridge calls: `sqrt`, `atan2`,
      and the horizontal part of the great-circle forward formula, which maps
      (latitude, longitude, range, bearing) to the destination's
      (latitude, longitude). They are not interpreted here. */
  datatype Numerics = Numerics(
    sqrt: real -> real,
    atan2: (real, real) -> real,
    forward: (real, real, real, real) -> (real, real))

  /** The static variables of the bridge. */
  datatype State = State(
    gotoPos: Triple,
    rcGotoPos: Triple,
    batt: Triple,
    obst: ObstacleRanges,
    curPos: Triple,
    status: Byte,
    curCmd: int,
    rcCmd: int,
    buzzCmd: int,
    height: real)

  /** The state before anything has been called: every buffer and code is zero. */
  const Initial: State :=
    State([0.0, 0.0, 0.0], [0.0, 0.0, 0.0], [0.0, 0.0, 0.0], [0.0, 0.0, 0.0, 0.0, 0.0], [0.0, 0.0, 0.0],
          0, CC.IDLE, 0, CC.IDLE, 0.0)

  /** The names of the static variables, for stating what an operation leaves alone. */
  datatype Field = GotoPos | RcGotoPos | Batt | Obst | CurPos | Status | CurCmd | RcCmd | BuzzCmd | Height

  /** Every field outside `fs` has the same value in `s` and `t`. */
  predicate OnlyChanged(s: State, t: State, fs: set<Field>)
  {
    (GotoPos !in fs ==> t.gotoPos == s.gotoPos) &&
    (RcGotoPos !in fs ==> t.rcGotoPos == s.rcGotoPos) &&
    (Batt !in fs ==> t.batt == s.batt) &&
    (Obst !in fs ==> t.obst == s.obst) &&
    (CurPos !in fs ==> t.curPos == s.curPos) &&
    (Status !in fs ==> t.status == s.status) &&
    (CurCmd !in fs ==> t.curCmd == s.curCmd) &&
    (RcCmd !in fs ==> t.rcCmd == s.rcCmd) &&
    (BuzzCmd !in fs ==> t.buzzCmd == s.buzzCmd) &&
    (Height !in fs ==> t.height == s.height)
  }

  /** The primary channel holds action `a`: its code and its pending marker. */
  predicate Commanded(t: State, a: CC.Action)
  {
    t.curCmd == CC.Code(a) && t.buzzCmd == CC.Marker(a)
  }

  /** The new state and the VM outcome of a closure that checks its arguments. */
  datatype Reply = Reply(next: State, outcome: Outcome)

  /** Issuing an action overwrites the pending command, whatever it was. */
  function Issue(s: State, a: CC.Action): (t: State)
    ensures Commanded(t, a)
    ensures OnlyChanged(s, t, {CurCmd, BuzzCmd})
  {
    s.(curCmd := CC.Code(a), buzzCmd := CC.Marker(a))
  }

  /*------------------------------------------------------------------------
    Geodesy helper
   ------------------------------------------------------------------------*/

  /** `gps_from_rb`: the destination at `range` and `bearing` from `curPos`;
      its altitude is the desired height, never derived from the formula. */
  function GpsFromRb(n: Numerics, curPos: Triple, height: real, range: real, bearing: real): (out: Triple)
    ensures out[2] == height
    ensures (out[0], out[1]) == n.forward(curPos[0], curPos[1], range, bearing)
  {
    var horizontal := n.forward(curPos[0], curPos[1], range, bearing);
    [horizontal.0, horizontal.1, height]
  }

  /*------------------------------------------------------------------------
    Script-callable closures
   ------------------------------------------------------------------------*/

  /** The range `sqrt(dx*dx + dy*dy)` of the displacement (dx, dy). */
  function Range(n: Numerics, dx: real, dy: real): real
  {
    n.sqrt(dx * dx + dy * dy)
  }

  /** The bearing `atan2(dy, dx)` of the displacement (dx, dy). */
  function Bearing(n: Numerics, dx: real, dy: real): real
  {
    n.atan2(dy, dx)
  }

  /** `buzzuav_moveto(dx, dy)`: go to the point `dx`, `dy` metres away in the
      local tangent frame. Both checks come before any write. */
  function Moveto(n: Numerics, s: State, args: seq<BuzzObj>): (r: Reply)
    ensures r.outcome.Pass? <==> |args| == 2 && args[0].FloatObj? && args[1].FloatObj?
    ensures |args| != 2 ==> r.outcome == Fail(WrongArgCount(2, |args|))
    ensures |args| == 2 && !args[0].FloatObj? ==> r.outcome == Fail(NotAFloat(1))
    ensures |args| == 2 && args[0].FloatObj? && !args[1].FloatObj? ==> r.outcome == Fail(NotAFloat(2))
    ensures r.outcome.Fail? ==> r.next == s
    ensures r.outcome.Pass? ==> r.next.gotoPos == GpsFromRb(n, s.curPos, s.height, Range(n, args[0].f, args[1].f), Bearing(n, args[0].f, args[1].f))
    ensures r.outcome.Pass? ==>
              r.next.gotoPos[2] == s.height && Commanded(r.next, CC.Waypoint) &&
              OnlyChanged(s, r.next, {GotoPos, CurCmd, BuzzCmd})
  {
    if |args| != 2 then Reply(s, Fail(WrongArgCount(2, |args|)))
    else if !args[0].FloatObj? then Reply(s, Fail(NotAFloat(1)))
    else if !args[1].FloatObj? then Reply(s, Fail(NotAFloat(2)))
    else
      var goal := GpsFromRb(n, s.curPos, s.height, Range(n, args[0].f, args[1].f), Bearing(n, args[0].f, args[1].f));
      Reply(Issue(s.(gotoPos := goal), CC.Waypoint), Pass)
  }

  /** `buzzuav_goto()`: go to the destination last set on the remote-control
      channel, at the desired height. It takes no arguments and checks none. */
  function Goto(s: State): (t: State)
    ensures t.rcGotoPos == s.rcGotoPos[2 := s.height]
    ensures t.gotoPos == t.rcGotoPos
    ensures Commanded(t, CC.Waypoint)
    ensures OnlyChanged(s, t, {RcGotoPos, GotoPos, CurCmd, BuzzCmd})
  {
    var s1 := s.(rcGotoPos := s.rcGotoPos[2 := s.height]);
    Issue(SetGoto(s1, s1.rcGotoPos), CC.Waypoint)
  }

  /** `buzzuav_takeoff(altitude)`: climb to `altitude`, which also becomes the
      desired height of every later goto. */
  function Takeoff(s: State, args: seq<BuzzObj>): (r: Reply)
    ensures r.outcome.Pass? <==> |args| == 1 && args[0].FloatObj?
    ensures |args| != 1 ==> r.outcome == Fail(WrongArgCount(1, |args|))
    ensures |args| == 1 && !args[0].FloatObj? ==> r.outcome == Fail(NotAFloat(1))
    ensures r.outcome.Fail? ==> r.next == s
    ensures r.outcome.Pass? ==>
              r.next.gotoPos == s.gotoPos[2 := args[0].f] && r.next.height == args[0].f &&
              Commanded(r.next, CC.Takeoff) && OnlyChanged(s, r.next, {GotoPos, Height, CurCmd, BuzzCmd})
  {
    if |args| != 1 then Reply(s, Fail(WrongArgCount(1, |args|)))
    else if !args[0].FloatObj? then Reply(s, Fail(NotAFloat(1)))
    else
      var s1 := s.(gotoPos := s.gotoPos[2 := args[0].f]);
      Reply(Issue(s1.(height := s1.gotoPos[2]), CC.Takeoff), Pass)
  }

  /*------------------------------------------------------------------------
    Dispatcher-side accessors and telemetry setters
   ------------------------------------------------------------------------*/

  /** `set_goto(pos)`: the goal becomes the first three values of `pos`. */
  function SetGoto(s: State, pos: seq<real>): (t: State)
    requires |pos| >= 3
    ensures t.gotoPos == pos[..3] && OnlyChanged(s, t, {GotoPos})
  {
    s.(gotoPos := [pos[0], pos[1], pos[2]])
  }

  /** `bzz_cmd()`: hand the pending marker to the dispatcher and clear it. */
  function BzzCmd(s: State): (r: (State, int))
    ensures r.1 == s.buzzCmd
    ensures r.0.buzzCmd == CC.IDLE && OnlyChanged(s, r.0, {BuzzCmd})
  {
    (s.(buzzCmd := CC.IDLE), s.buzzCmd)
  }

  /** `rc_set_goto(pos)`: the remote-control destination becomes the first three values of `pos`. */
  function RcSetGoto(s: State, pos: seq<real>): (t: State)
    requires |pos| >= 3
    ensures t.rcGotoPos == pos[..3] && OnlyChanged(s, t, {RcGotoPos})
  {
    s.(rcGotoPos := [pos[0], pos[1], pos[2]])
  }

  /** `rc_call(cmd)`: record the command issued on the remote-control channel. */
  function RcCall(s: State, cmd: int): (t: State)
    ensures t.rcCmd == cmd && OnlyChanged(s, t, {RcCmd})
  {
    s.(rcCmd := cmd)
  }

  /** `set_obstacle_dist(dist)`: the obstacle ranges become the first five values of `dist`. */
  function SetObstacleDist(s: State, dist: seq<real>): (t: State)
    requires |dist| >= 5
    ensures t.obst == dist[..5] && OnlyChanged(s, t, {Obst})
  {
    s.(obst := dist[..5])
  }

  /** `set_battery(voltage, current, remaining)`. */
  function SetBattery(s: State, voltage: real, current: real, remaining: real): (t: State)
    ensures t.batt == [voltage, current, remaining] && OnlyChanged(s, t, {Batt})
  {
    s.(batt := [voltage, current, remaining])
  }

  /** `set_currentpos(latitude, longitude, altitude)`. */
  function SetCurrentPos(s: State, latitude: real, longitude: real, altitude: real): (t: State)
    ensures t.curPos == [latitude, longitude, altitude] && OnlyChanged(s, t, {CurPos})
  {
    s.(curPos := [latitude, longitude, altitude])
  }

  /** `flight_status_update(state)`. */
  function FlightStatusUpdate(s: State, state: Byte): (t: State)
    ensures t.status == state && OnlyChanged(s, t, {Status})
  {
    s.(status := state)
  }

  /*------------------------------------------------------------------------
    Telemetry publishers: the tables they build
   ------------------------------------------------------------------------*/

  /** The `position` and `rc_goto` tables: {latitude, longitude, altitude}. */
  function PositionTable(p: Triple): (t: Table)
    ensures t == map["latitude" := FloatObj(p[0]), "longitude" := FloatObj(p[1]), "altitude" := FloatObj(p[2])]
  {
    var lat, lon, alt := ("latitude", FloatObj(p[0])), ("longitude", FloatObj(p[1])), ("altitude", FloatObj(p[2]));
    assert [lat, lon, alt] == [lat] + [lon, alt] && [lon, alt] == [lon] + [alt] && [alt] == [alt] + [];
    PutAllCons(map[], lat.0, lat.1, [lon, alt]);
    PutAllCons(map[lat.0 := lat.1], lon.0, lon.1, [alt]);
    PutAllCons(map[lat.0 := lat.1, lon.0 := lon.1], alt.0, alt.1, []);
    PutAll(map[], [lat, lon, alt])
  }

  /** The `battery` table: {voltage, current, capacity}. */
  function BatteryTable(b: Triple): (t: Table)
    ensures t == map["voltage" := FloatObj(b[0]), "current" := FloatObj(b[1]), "capacity" := FloatObj(b[2])]
  {
    var volt, curr, cap := ("voltage", FloatObj(b[0])), ("current", FloatObj(b[1])), ("capacity", FloatObj(b[2]));
    assert [volt, curr, cap] == [volt] + [curr, cap] && [curr, cap] == [curr] + [cap] && [cap] == [cap] + [];
    PutAllCons(map[], volt.0, volt.1, [curr, cap]);
    PutAllCons(map[volt.0 := volt.1], curr.0, curr.1, [cap]);
    PutAllCons(map[volt.0 := volt.1, curr.0 := curr.1], cap.0, cap.1, []);
    PutAll(map[], [volt, curr, cap])
  }

  /** The `obstacle` table: {bottom, front, right, back, left}. */
  function ObstacleTable(o: ObstacleRanges): (t: Table)
    ensures t == map["bottom" := FloatObj(o[0]), "front" := FloatObj(o[1]), "right" := FloatObj(o[2]),
                     "back" := FloatObj(o[3]), "left" := FloatObj(o[4])]
  {
    var bottom, front, right := ("bottom", FloatObj(o[0])), ("front", FloatObj(o[1])), ("right", FloatObj(o[2]));
    var back, left := ("back", FloatObj(o[3])), ("left", FloatObj(o[4]));
    assert [bottom, front, right, back, left] == [bottom] + [front, right, back, left];
    assert [front, right, back, left] == [front] + [right, back, left];
    assert [right, back, left] == [right] + [back, left];
    assert [back, left] == [back] + [left] && [left] == [left] + [];
    var m1 := map[bottom.0 := bottom.1];
    var m2 := m1[front.0 := front.1];
    var m3 := m2[right.0 := right.1];
    var m4 := m3[back.0 := back.1];
    PutAllCons(map[], bottom.0, bottom.1, [front, right, back, left]);
    PutAllCons(m1, front.0, front.1, [right, back, left]);
    PutAllCons(m2, right.0, right.1, [back, left]);
    PutAllCons(m3, back.0, back.1, [left]);
    PutAllCons(m4, left.0, left.1, []);
    PutAll(map[], [bottom, front, right, back, left])
  }

  /** The `flight` table: {rc_cmd, status}. */
  function FlightTable(rcCmd: int, status: Byte): (t: Table)
    ensures t == map["rc_cmd" := IntObj(rcCmd), "status" := IntObj(status as int)]
  {
    var cmd, stat := ("rc_cmd", IntObj(rcCmd)), ("status", IntObj(status as int));
    assert [cmd, stat] == [cmd] + [stat] && [stat] == [stat] + [];
    PutAllCons(map[], cmd.0, cmd.1, [stat]);
    PutAllCons(map[cmd.0 := cmd.1], stat.0, stat.1, []);
    PutAll(map[], [cmd, stat])
  }

  /** `buzzuav_update_flight_status`: publish the flight table with the
      pending remote-control command, clear that command, and publish the
      remote-control destination as the separate global `rc_goto`. */
  function UpdateFlightStatus(s: State, g: Globals): (r: (State, Globals))
    ensures r.0.rcCmd == 0 && OnlyChanged(s, r.0, {RcCmd})
    ensures r.1.Keys == g.Keys + {"flight", "rc_goto"}
    ensures r.1["flight"] == TableObj(map["rc_cmd" := IntObj(s.rcCmd), "status" := IntObj(s.status as int)])
    ensures r.1["rc_goto"] == TableObj(PositionTable(s.rcGotoPos))
    ensures forall k :: k in g && k != "flight" && k != "rc_goto" ==> r.1[k] == g[k]
  {
    var flight := FlightTable(s.rcCmd, s.status);
    (s.(rcCmd := 0), Store(Store(g, "flight", flight), "rc_goto", PositionTable(s.rcGotoPos)))
  }
}
