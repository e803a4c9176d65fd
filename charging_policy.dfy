/**
  The charging rule of one automation cycle: given whether the car is charging,
  the current solar production (kW) and the car's battery level (%), decide
  whether to start charging, stop charging, or do nothing. The two solar
  thresholds form a hysteresis band, and the battery cap overrides the start
  condition.
 */
module ChargingPolicy {

  /** Start charging at or above this solar production, in kW (MIN_SOLAR_PARA_INICIAR_KW). */
  const MinSolarToStartKw: real := 2.0
  /** Stop charging below this solar production, in kW (MIN_SOLAR_PARA_PARAR_KW). */
  const MinSolarToStopKw: real := 0.5
  /** Never start, and stop, at or above this battery level, in % (MAX_BATTERY_SOC). */
  const MaxBatterySoc: int := 90

  /** The outcome of one decision: the command to send to the car, if any. */
  datatype Decision = Start | Stop | NoCommand

  /**
    The if/elif of one cycle. Start is tested first; Stop only when Start did
    not fire. The ensures clauses are the rule's promises: a command never
    contradicts the charging state, the battery cap dominates the start
    condition, each stop reason suffices alone, and the two hysteresis bands
    are quiet.
   */
  function Decide(isCharging: bool, solarPowerKw: real, batteryLevel: int): (d: Decision)
    // Start only when not charging, with enough sun and below the cap
    ensures d == Start ==> !isCharging && solarPowerKw >= MinSolarToStartKw && batteryLevel < MaxBatterySoc
    // Stop only when charging, because the sun faded or the battery is full
    ensures d == Stop ==> isCharging && (solarPowerKw < MinSolarToStopKw || batteryLevel >= MaxBatterySoc)
    // the cap dominates: never Start at or above it, whatever the sun does
    ensures batteryLevel >= MaxBatterySoc ==> d != Start
    // the start condition always starts
    ensures !isCharging && solarPowerKw >= MinSolarToStartKw && batteryLevel < MaxBatterySoc ==> d == Start
    // each stop reason suffices on its own
    ensures isCharging && solarPowerKw < MinSolarToStopKw ==> d == Stop
    ensures isCharging && batteryLevel >= MaxBatterySoc ==> d == Stop
    // the two quiet bands
    ensures isCharging && solarPowerKw >= MinSolarToStopKw && batteryLevel < MaxBatterySoc ==> d == NoCommand
    ensures !isCharging && solarPowerKw < MinSolarToStartKw ==> d == NoCommand
    ensures !isCharging && batteryLevel >= MaxBatterySoc ==> d == NoCommand
  {
    if !isCharging && solarPowerKw >= MinSolarToStartKw && batteryLevel < MaxBatterySoc then
      Start
    else if isCharging && (solarPowerKw < MinSolarToStopKw || batteryLevel >= MaxBatterySoc) then
      Stop
    else
      NoCommand
  }

  /** A solar production of 0 kW, the fallback of the solar reader, never starts charging. */
  lemma ZeroSolarNeverStarts(isCharging: bool, batteryLevel: int)
    ensures Decide(isCharging, 0.0, batteryLevel) != Start
  {
  }

  // ---------------------------------------------------------------------------
  // Successive cycles. The automation re-runs the cycle forever, deciding from
  // fresh readings each time. To reason about a run, the car is assumed to
  // obey each command by the next cycle; the readings are arbitrary.
  // ---------------------------------------------------------------------------

  /** The readings one cycle takes: solar production and the car's battery level. */
  datatype Reading = Reading(solarPowerKw: real, batteryLevel: int)

  /** The car's charging state after it has obeyed a decision. */
  function Obey(isCharging: bool, d: Decision): bool
  {
    match d
    case Start => true
    case Stop => false
    case NoCommand => isCharging
  }

  /** The charging state after a run of cycles over `readings`. */
  function FinalCharging(isCharging: bool, readings: seq<Reading>): bool
    decreases |readings|
  {
    if readings == [] then isCharging
    else
      var d := Decide(isCharging, readings[0].solarPowerKw, readings[0].batteryLevel);
      FinalCharging(Obey(isCharging, d), readings[1..])
  }

  /**
    The commands sent over a run of cycles starting from charging state
    `isCharging`, one cycle per reading, leaving out the cycles that send
    nothing. Each cycle sends at most one command, and every entry is a real
    command.
   */
  function Issued(isCharging: bool, readings: seq<Reading>): (cmds: seq<Decision>)
    ensures |cmds| <= |readings|
    ensures forall i :: 0 <= i < |cmds| ==> cmds[i] != NoCommand
    decreases |readings|
  {
    if readings == [] then []
    else
      var d := Decide(isCharging, readings[0].solarPowerKw, readings[0].batteryLevel);
      var rest := Issued(Obey(isCharging, d), readings[1..]);
      if d == NoCommand then rest else [d] + rest
  }

  /**
    Commands alternate: the first one is the one that changes the initial
    charging state, and no command is sent twice in a row.
   */
  ghost predicate Alternating(isCharging: bool, cmds: seq<Decision>)
  {
    && (cmds != [] ==> cmds[0] == (if isCharging then Stop else Start))
    && forall i :: 0 <= i < |cmds| - 1 ==> cmds[i] != cmds[i + 1]
  }

  /**
    With an obedient car no command is ever redundant: Start and Stop
    alternate, so a charging car is never sent Start and an idle car never
    sent Stop, however the readings move. A real car that ignores Start
    (unplugged, or reporting "Complete") is sent Start again every sunny cycle.
   */
  lemma {:induction false} IssuedAlternates(isCharging: bool, readings: seq<Reading>)
    ensures Alternating(isCharging, Issued(isCharging, readings))
    decreases |readings|
  {
    if readings != [] {
      var d := Decide(isCharging, readings[0].solarPowerKw, readings[0].batteryLevel);
      var next := Obey(isCharging, d);
      var rest := Issued(next, readings[1..]);
      IssuedAlternates(next, readings[1..]);
      if d != NoCommand {
        var cmds := [d] + rest;
        assert cmds[1..] == rest;
        assert d == (if isCharging then Stop else Start);
        assert rest != [] ==> rest[0] == (if next then Stop else Start);
        forall i | 0 <= i < |cmds| - 1
          ensures cmds[i] != cmds[i + 1]
        {
          if i > 0 {
            assert cmds[i] == rest[i - 1] && cmds[i + 1] == rest[i];
          }
        }
      }
    }
  }

  /**
    The charging state an obedient car ends in is the one the last command
    set, or the initial one if nothing was sent.
   */
  lemma {:induction false} FinalChargingFollowsLastCommand(isCharging: bool, readings: seq<Reading>)
    ensures var cmds := Issued(isCharging, readings);
      FinalCharging(isCharging, readings) == if cmds == [] then isCharging else cmds[|cmds| - 1] == Start
    decreases |readings|
  {
    if readings != [] {
      var d := Decide(isCharging, readings[0].solarPowerKw, readings[0].batteryLevel);
      FinalChargingFollowsLastCommand(Obey(isCharging, d), readings[1..]);
    }
  }

  /** The quiet band for every state: sun between the two thresholds and battery below the cap. */
  predicate InBand(r: Reading)
  {
    MinSolarToStopKw <= r.solarPowerKw < MinSolarToStartKw && r.batteryLevel < MaxBatterySoc
  }

  /**
    Hysteresis: while the sun stays inside the band and the battery below the
    cap, no command is ever sent, whether the car is charging or not.
   */
  lemma {:induction false} NothingIssuedInBand(isCharging: bool, readings: seq<Reading>)
    requires forall i :: 0 <= i < |readings| ==> InBand(readings[i])
    ensures Issued(isCharging, readings) == []
    ensures FinalCharging(isCharging, readings) == isCharging
    decreases |readings|
  {
    if readings != [] {
      assert InBand(readings[0]);
      assert forall i :: 0 <= i < |readings[1..]| ==> InBand(readings[1..][i]) by {
        forall i | 0 <= i < |readings[1..]| ensures InBand(readings[1..][i]) {
          assert readings[1..][i] == readings[i + 1];
        }
      }
      NothingIssuedInBand(isCharging, readings[1..]);
    }
  }

  /**
    The cap over a run: while the battery stays at or above the cap, a
    charging car is sent exactly one Stop (in the first cycle) and nothing
    else is ever sent; an idle car is sent nothing.
   */
  lemma {:induction false} FullBatteryStopsOnce(isCharging: bool, readings: seq<Reading>)
    requires forall i :: 0 <= i < |readings| ==> readings[i].batteryLevel >= MaxBatterySoc
    ensures Issued(isCharging, readings) == if isCharging && readings != [] then [Stop] else []
    decreases |readings|
  {
    if readings != [] {
      var d := Decide(isCharging, readings[0].solarPowerKw, readings[0].batteryLevel);
      assert readings[0].batteryLevel >= MaxBatterySoc;
      assert forall i :: 0 <= i < |readings[1..]| ==> readings[1..][i].batteryLevel >= MaxBatterySoc by {
        forall i | 0 <= i < |readings[1..]| ensures readings[1..][i].batteryLevel >= MaxBatterySoc {
          assert readings[1..][i] == readings[i + 1];
        }
      }
      FullBatteryStopsOnce(Obey(isCharging, d), readings[1..]);
    }
  }
}
