/** Sequences of calls into the bridge, as the script and the dispatcher
    interleave them, and what holds after any such sequence: the last command
    issued wins, the pending marker and the remote-control command are each
    delivered once, and telemetry never writes the script's goal, height or
    command, while the script writes only one telemetry field: the absolute
    goto overwrites the altitude of the remote-control destination. */
module CommandTraces {
  import opened BuzzValues
  import CC = CommandCodes
  import CS = CommandSpec

  datatype Option<T> = None | Some(value: T)

  /** One call into the bridge: a script closure, the dispatcher's
      read-and-clear accessor, a telemetry setter, or the flight-status
      publisher (the one publisher that changes state). The plain reads
      `getcmd`, `getgoto` and the other publishers change nothing and are left
      out of traces. */
  datatype Call =
    | Takeoff(args: seq<BuzzObj>)
    | Land
    | Gohome
    | Arm
    | Disarm
    | Moveto(args: seq<BuzzObj>)
    | Goto
    | BzzCmd
    | SetGoto(pos: CS.Triple)
    | RcSetGoto(pos: CS.Triple)
    | RcCall(cmd: int)
    | SetObstacleDist(dist: CS.ObstacleRanges)
    | SetBattery(voltage: real, current: real, remaining: real)
    | SetCurrentPos(latitude: real, longitude: real, altitude: real)
    | FlightStatusUpdate(state: Byte)
    | UpdateFlightStatus

  /** The action a call puts on the primary channel, if it does: a closure
      whose argument check fails issues nothing. */
  function Issues(c: Call): Option<CC.Action>
  {
    match c
    case Takeoff(args) => if |args| == 1 && args[0].FloatObj? then Some(CC.Takeoff) else None
    case Land => Some(CC.Land)
    case Gohome => Some(CC.GoHome)
    case Arm => Some(CC.Arm)
    case Disarm => Some(CC.Disarm)
    case Moveto(args) => if |args| == 2 && args[0].FloatObj? && args[1].FloatObj? then Some(CC.Waypoint) else None
    case Goto => Some(CC.Waypoint)
    case _ => None
  }

  /** The calls made by the telemetry-ingestion side and the flight-status
      publisher, as opposed to the script's closures and the dispatcher's
      command accessors. */
  predicate IsTelemetry(c: Call)
  {
    c.RcSetGoto? || c.RcCall? || c.SetObstacleDist? || c.SetBattery? ||
    c.SetCurrentPos? || c.FlightStatusUpdate? || c.UpdateFlightStatus?
  }

  /** The state after one call. */
  function Step(n: CS.Numerics, s: CS.State, c: Call): CS.State
  {
    match c
    case Takeoff(args) => CS.Takeoff(s, args).next
    case Land => CS.Issue(s, CC.Land)
    case Gohome => CS.Issue(s, CC.GoHome)
    case Arm => CS.Issue(s, CC.Arm)
    case Disarm => CS.Issue(s, CC.Disarm)
    case Moveto(args) => CS.Moveto(n, s, args).next
    case Goto => CS.Goto(s)
    case BzzCmd => CS.BzzCmd(s).0
    case SetGoto(pos) => CS.SetGoto(s, pos)
    case RcSetGoto(pos) => CS.RcSetGoto(s, pos)
    case RcCall(cmd) => CS.RcCall(s, cmd)
    case SetObstacleDist(dist) => CS.SetObstacleDist(s, dist)
    case SetBattery(v, i, r) => CS.SetBattery(s, v, i, r)
    case SetCurrentPos(lat, lon, alt) => CS.SetCurrentPos(s, lat, lon, alt)
    case FlightStatusUpdate(state) => CS.FlightStatusUpdate(s, state)
    case UpdateFlightStatus => CS.UpdateFlightStatus(s, map[]).0
  }

  /** One call on the primary channel: an issuing call leaves its action
      pending, `bzz_cmd` clears the marker and keeps the code, and every other
      call leaves both alone. */
  lemma StepCommand(n: CS.Numerics, s: CS.State, c: Call)
    ensures Issues(c).Some? ==> CS.Commanded(Step(n, s, c), Issues(c).value)
    ensures Issues(c).None? ==> Step(n, s, c).curCmd == s.curCmd
    ensures Issues(c).None? && !c.BzzCmd? ==> Step(n, s, c).buzzCmd == s.buzzCmd
    ensures c.BzzCmd? ==> Step(n, s, c).buzzCmd == CC.IDLE
  {
  }

  /** One call on either side: telemetry calls leave the goal, the desired
      height and the primary channel alone; all other calls leave battery,
      obstacles, position, status and the remote-control command alone, and
      touch the remote-control destination only in the absolute goto, which
      overwrites its altitude; only `rc_call` sets a non-zero remote-control
      command. */
  lemma StepSeparation(n: CS.Numerics, s: CS.State, c: Call)
    ensures IsTelemetry(c) ==>
              var t := Step(n, s, c);
              t.gotoPos == s.gotoPos && t.height == s.height && t.curCmd == s.curCmd && t.buzzCmd == s.buzzCmd
    ensures !IsTelemetry(c) ==>
              var t := Step(n, s, c);
              t.batt == s.batt && t.obst == s.obst && t.curPos == s.curPos && t.status == s.status && t.rcCmd == s.rcCmd
    ensures !IsTelemetry(c) ==> Step(n, s, c).rcGotoPos[..2] == s.rcGotoPos[..2]
    ensures !IsTelemetry(c) && !c.Goto? ==> Step(n, s, c).rcGotoPos == s.rcGotoPos
    ensures !c.RcCall? && s.rcCmd == 0 ==> Step(n, s, c).rcCmd == 0
    ensures !SetsHeight(c) ==> Step(n, s, c).height == s.height
  {
  }

  /** The state after the calls, made in order. */
  function Run(n: CS.Numerics, s: CS.State, calls: seq<Call>): CS.State
    decreases |calls|
  {
    if calls == [] then s else Step(n, Run(n, s, calls[..|calls| - 1]), calls[|calls| - 1])
  }

  /** Last writer wins: whatever was pending before, the primary channel holds
      the action of the last call that issued one, unless the dispatcher has
      consumed its marker since (the code itself is never cleared). */
  lemma {:induction false} LastWriterWins(n: CS.Numerics, s: CS.State, calls: seq<Call>, i: nat)
    requires i < |calls| && Issues(calls[i]).Some?
    requires forall j :: i < j < |calls| ==> Issues(calls[j]).None? && !calls[j].BzzCmd?
    ensures CS.Commanded(Run(n, s, calls), Issues(calls[i]).value)
    decreases |calls|
  {
    if i < |calls| - 1 {
      var prefix := calls[..|calls| - 1];
      assert forall j :: i < j < |prefix| ==> prefix[j] == calls[j];
      LastWriterWins(n, s, prefix, i);
      StepCommand(n, Run(n, s, prefix), calls[|calls| - 1]);
    }
  }

  /** The code survives consumption: after the last issuing call, any number
      of `bzz_cmd` calls and other calls leave `getcmd` reporting its code. */
  lemma {:induction false} CodeOutlivesMarker(n: CS.Numerics, s: CS.State, calls: seq<Call>, i: nat)
    requires i < |calls| && Issues(calls[i]).Some?
    requires forall j :: i < j < |calls| ==> Issues(calls[j]).None?
    ensures Run(n, s, calls).curCmd == CC.Code(Issues(calls[i]).value)
    decreases |calls|
  {
    if i < |calls| - 1 {
      var prefix := calls[..|calls| - 1];
      assert forall j :: i < j < |prefix| ==> prefix[j] == calls[j];
      CodeOutlivesMarker(n, s, prefix, i);
      StepCommand(n, Run(n, s, prefix), calls[|calls| - 1]);
    }
  }

  /** Without an issuing call, the primary channel keeps its code and its
      marker, except that `bzz_cmd` clears the marker. */
  lemma {:induction false} NoIssueKeepsCommand(n: CS.Numerics, s: CS.State, calls: seq<Call>)
    requires forall j :: 0 <= j < |calls| ==> Issues(calls[j]).None?
    ensures Run(n, s, calls).curCmd == s.curCmd
    ensures Run(n, s, calls).buzzCmd == s.buzzCmd || Run(n, s, calls).buzzCmd == CC.IDLE
    ensures (forall j :: 0 <= j < |calls| ==> !calls[j].BzzCmd?) ==> Run(n, s, calls).buzzCmd == s.buzzCmd
    decreases |calls|
  {
    if calls != [] {
      var prefix := calls[..|calls| - 1];
      assert forall j :: 0 <= j < |prefix| ==> prefix[j] == calls[j];
      NoIssueKeepsCommand(n, s, prefix);
      StepCommand(n, Run(n, s, prefix), calls[|calls| - 1]);
    }
  }

  /** The marker is delivered once: after `bzz_cmd`, a second `bzz_cmd`
      returns the idle value unless some call in between issued a command. */
  lemma {:induction false} MarkerDeliveredOnce(n: CS.Numerics, s: CS.State, calls: seq<Call>)
    requires forall j :: 0 <= j < |calls| ==> Issues(calls[j]).None?
    ensures CS.BzzCmd(Run(n, CS.BzzCmd(s).0, calls)).1 == CC.IDLE
    ensures Run(n, CS.BzzCmd(s).0, calls).curCmd == s.curCmd
  {
    NoIssueKeepsCommand(n, CS.BzzCmd(s).0, calls);
  }

  /** Telemetry never disturbs a command: sensor updates, remote-control
      inputs and the flight-status publisher leave the goal, the desired
      height and the primary channel as they were. */
  lemma {:induction false} TelemetryKeepsCommand(n: CS.Numerics, s: CS.State, calls: seq<Call>)
    requires forall j :: 0 <= j < |calls| ==> IsTelemetry(calls[j])
    ensures var t := Run(n, s, calls);
      t.gotoPos == s.gotoPos && t.height == s.height && t.curCmd == s.curCmd && t.buzzCmd == s.buzzCmd
    decreases |calls|
  {
    if calls != [] {
      var prefix := calls[..|calls| - 1];
      assert forall j :: 0 <= j < |prefix| ==> prefix[j] == calls[j];
      TelemetryKeepsCommand(n, s, prefix);
      StepSeparation(n, Run(n, s, prefix), calls[|calls| - 1]);
    }
  }

  /** Commands barely disturb telemetry: closures and the dispatcher's
      accessors leave battery, obstacle ranges, current position, flight
      status and the remote-control command as they were, and the
      remote-control destination too, except that an absolute goto
      overwrites its altitude. */
  lemma {:induction false} CommandsKeepTelemetry(n: CS.Numerics, s: CS.State, calls: seq<Call>)
    requires forall j :: 0 <= j < |calls| ==> !IsTelemetry(calls[j])
    ensures var t := Run(n, s, calls);
      t.batt == s.batt && t.obst == s.obst && t.curPos == s.curPos && t.status == s.status && t.rcCmd == s.rcCmd
    ensures Run(n, s, calls).rcGotoPos[..2] == s.rcGotoPos[..2]
    ensures (forall j :: 0 <= j < |calls| ==> !calls[j].Goto?) ==> Run(n, s, calls).rcGotoPos == s.rcGotoPos
    decreases |calls|
  {
    if calls != [] {
      var prefix := calls[..|calls| - 1];
      assert forall j :: 0 <= j < |prefix| ==> prefix[j] == calls[j];
      CommandsKeepTelemetry(n, s, prefix);
      StepSeparation(n, Run(n, s, prefix), calls[|calls| - 1]);
    }
  }

  /** A call that sets the desired height: an accepted takeoff. */
  predicate SetsHeight(c: Call)
  {
    c.Takeoff? && Issues(c).Some?
  }

  /** The desired height is the altitude of the last accepted takeoff; no
      other call changes it. */
  lemma {:induction false} HeightFromLastTakeoff(n: CS.Numerics, s: CS.State, calls: seq<Call>, i: nat)
    requires i < |calls| && SetsHeight(calls[i])
    requires forall j :: i < j < |calls| ==> !SetsHeight(calls[j])
    ensures Run(n, s, calls).height == calls[i].args[0].f
    decreases |calls|
  {
    if i < |calls| - 1 {
      var prefix := calls[..|calls| - 1];
      assert forall j :: i < j < |prefix| ==> prefix[j] == calls[j];
      HeightFromLastTakeoff(n, s, prefix, i);
      StepSeparation(n, Run(n, s, prefix), calls[|calls| - 1]);
    }
  }

  /** Without an accepted takeoff the desired height never changes. */
  lemma {:induction false} HeightWithoutTakeoff(n: CS.Numerics, s: CS.State, calls: seq<Call>)
    requires forall j :: 0 <= j < |calls| ==> !SetsHeight(calls[j])
    ensures Run(n, s, calls).height == s.height
    decreases |calls|
  {
    if calls != [] {
      var prefix := calls[..|calls| - 1];
      assert forall j :: 0 <= j < |prefix| ==> prefix[j] == calls[j];
      HeightWithoutTakeoff(n, s, prefix);
      StepSeparation(n, Run(n, s, prefix), calls[|calls| - 1]);
    }
  }

  /** Once cleared, the remote-control command stays 0 until a new `rc_call`. */
  lemma {:induction false} RcCommandStaysClear(n: CS.Numerics, s: CS.State, calls: seq<Call>)
    requires s.rcCmd == 0
    requires forall j :: 0 <= j < |calls| ==> !calls[j].RcCall?
    ensures Run(n, s, calls).rcCmd == 0
    decreases |calls|
  {
    if calls != [] {
      var prefix := calls[..|calls| - 1];
      assert forall j :: 0 <= j < |prefix| ==> prefix[j] == calls[j];
      RcCommandStaysClear(n, s, prefix);
      StepSeparation(n, Run(n, s, prefix), calls[|calls| - 1]);
    }
  }

  /** The remote-control command is reported once: the flight-status
      publisher reports it and clears it, so every later publish reports 0
      until a new `rc_call`. */
  lemma RcCommandReportedOnce(n: CS.Numerics, s: CS.State, g: Globals, g2: Globals, calls: seq<Call>)
    requires forall j :: 0 <= j < |calls| ==> !calls[j].RcCall?
    ensures Run(n, CS.UpdateFlightStatus(s, g).0, calls).rcCmd == 0
    ensures var t := Run(n, CS.UpdateFlightStatus(s, g).0, calls);
      CS.UpdateFlightStatus(t, g2).1["flight"] == TableObj(map["rc_cmd" := IntObj(0), "status" := IntObj(t.status as int)])
  {
    RcCommandStaysClear(n, CS.UpdateFlightStatus(s, g).0, calls);
  }

  /** The absolute goto flies to the last remote-control destination, at the
      desired height, whatever the script requested before. */
  lemma GotoUsesRcDestination(s: CS.State, pos: CS.Triple, g: map<string, BuzzObj>)
    ensures var t := CS.Goto(CS.RcSetGoto(s, pos));
      t.gotoPos == [pos[0], pos[1], s.height] && CS.Commanded(t, CC.Waypoint)
    ensures var t := CS.Goto(CS.RcSetGoto(s, pos));
      CS.UpdateFlightStatus(t, g).1["rc_goto"] ==
        TableObj(map["latitude" := FloatObj(pos[0]), "longitude" := FloatObj(pos[1]), "altitude" := FloatObj(s.height)])
  {
  }

  /** Takeoff to 10 then a move by (3, 4): the desired height stays 10, the
      primary code becomes waypoint navigation, and the goal is recomputed
      from range sqrt(25) and bearing atan2(4, 3) at that height. */
  lemma TakeoffThenMoveto(n: CS.Numerics, s: CS.State)
    ensures var t := Run(n, s, [Takeoff([FloatObj(10.0)]), Moveto([FloatObj(3.0), FloatObj(4.0)])]);
      t.height == 10.0 && CS.Commanded(t, CC.Waypoint) &&
      t.gotoPos == CS.GpsFromRb(n, s.curPos, 10.0, n.sqrt(25.0), n.atan2(4.0, 3.0))
  {
  }

  /** Arm then disarm leaves only the disarm pending: code ARM + 1, marker 4. */
  lemma ArmThenDisarm(n: CS.Numerics, s: CS.State)
    ensures var t := Run(n, s, [Arm, Disarm]);
      t.curCmd == CC.CMD_COMPONENT_ARM_DISARM + 1 && t.buzzCmd == 4
  {
  }
}
