/**
  One automation cycle (run_automation_logic): take the first car on the
  account, wake it if it is not online, refresh its data, read the solar
  production and send at most one charging command.

  The vehicle API is a remote collaborator. A `Vehicle` object holds the
  fields the cycle reads and the log of requests sent to it; the remote
  outcome of each request (whether the wake reached the car, what the data
  refresh returned) is a parameter.
 */
module Automation {
  import opened Wrappers
  import opened ChargingPolicy
  import Solplanet

  /** The vehicle state that needs no wake-up. */
  const Online: string := "online"
  /** The charging state reported while the car draws current. */
  const Charging: string := "Charging"

  /** The part of the refreshed vehicle data the cycle reads (charge_state). */
  datatype ChargeState = ChargeState(chargingState: string, batteryLevel: int)

  /** The two commands sent to the car. */
  datatype VehicleCommand = ChargeStart | ChargeStop

  /** A request sent to the vehicle API for this car. */
  datatype Request = WakeUp | FetchData | Send(command: VehicleCommand)

  /** Where a cycle ended. */
  datatype Outcome =
    | NoVehicle                    // the account lists no car
    | WakeFailed                   // the wake-up raised before the car came online
    | FetchFailed                  // the data refresh raised
    | Completed(decision: Decision)

  /** What a cycle does: where it ends and the requests it sends to the car, in order. */
  datatype Trace = Trace(outcome: Outcome, requests: seq<Request>)

  /** A car of the account, as the vehicle API client presents it. */
  class Vehicle {
    /** The reported state: "online", "asleep", "offline", ... */
    var state: string
    /** The charge data as of the last refresh. */
    var chargeState: ChargeState
    /** Requests sent to the vehicle API for this car, oldest first. */
    var requests: seq<Request>

    constructor (state: string, chargeState: ChargeState)
      ensures this.state == state && this.chargeState == chargeState && requests == []
    {
      this.state := state;
      this.chargeState := chargeState;
      requests := [];
    }

    /**
      sync_wake_up: blocks until the car reports online, or raises. `reached`
      is whether the car came online in time; `ok` reports it to the caller.
     */
    method SyncWakeUp(reached: bool) returns (ok: bool)
      modifies this
      ensures ok == reached
      ensures requests == old(requests) + [WakeUp]
      ensures state == if reached then Online else old(state)
      ensures chargeState == old(chargeState)
    {
      requests := requests + [WakeUp];
      if reached {
        state := Online;
      }
      ok := reached;
    }

    /**
      get_vehicle_data: refreshes the car's fields in place. `fetched` is what
      the API returned, None when the request raised.
     */
    method GetVehicleData(fetched: Option<ChargeState>) returns (ok: bool)
      modifies this
      ensures ok == fetched.Some?
      ensures requests == old(requests) + [FetchData]
      ensures chargeState == if fetched.Some? then fetched.value else old(chargeState)
      ensures state == old(state)
    {
      requests := requests + [FetchData];
      if fetched.Some? {
        chargeState := fetched.value;
      }
      ok := fetched.Some?;
    }

    /** command: sends a charging command to the car. */
    method Command(command: VehicleCommand)
      modifies this
      ensures requests == old(requests) + [Send(command)]
      ensures state == old(state) && chargeState == old(chargeState)
    {
      requests := requests + [Send(command)];
    }
  }

  /** is_charging is true exactly for the charging state "Charging", as written. */
  predicate IsCharging(cs: ChargeState)
  {
    cs.chargingState == Charging
  }

  /** The command request that carries out a decision, if any. */
  function CommandRequests(d: Decision): seq<Request>
  {
    match d
    case Start => [Send(ChargeStart)]
    case Stop => [Send(ChargeStop)]
    case NoCommand => []
  }

  /**
    What one cycle does. `car` is the reported state of the first listed car,
    None when the account lists none; `wakeReached` and `fetched` are the
    remote outcomes of the wake-up and the data refresh; `solarPowerKw` is
    the solar reading.
   */
  function Cycle(car: Option<string>, wakeReached: bool, fetched: Option<ChargeState>, solarPowerKw: real): (t: Trace)
    // an empty vehicle list ends the cycle without sending anything
    ensures car == None <==> t.outcome == NoVehicle
    ensures car == None ==> t.requests == []
    // a wake-up is sent exactly when the car is not online, and before anything else
    ensures WakeUp in t.requests <==> car.Some? && car.value != Online
    ensures forall i :: 0 <= i < |t.requests| && t.requests[i] == WakeUp ==> i == 0
    // a command is only ever the last request, right after the data refresh: at most one per cycle
    ensures forall i :: 0 <= i < |t.requests| && t.requests[i].Send? ==>
      i == |t.requests| - 1 && 0 < i && t.requests[i - 1] == FetchData
    // a failed wake-up ends the cycle before the refresh; a failed refresh ends it before the decision
    ensures t.outcome == WakeFailed <==> car.Some? && car.value != Online && !wakeReached
    ensures t.outcome == FetchFailed <==> car.Some? && (car.value == Online || wakeReached) && fetched.None?
    // no request is sent twice: at most one wake-up, one refresh and one command
    ensures forall i, j :: 0 <= i < j < |t.requests| ==> t.requests[i] != t.requests[j]
    // the data is refreshed exactly when the car is (or was brought) online
    ensures FetchData in t.requests <==> car.Some? && (car.value == Online || wakeReached)
    // the decision is taken exactly when the refresh succeeded, from the refreshed data
    ensures t.outcome.Completed? <==> car.Some? && (car.value == Online || wakeReached) && fetched.Some?
    ensures t.outcome.Completed? ==>
      t.outcome.decision == Decide(fetched.value.chargingState == Charging, solarPowerKw, fetched.value.batteryLevel)
    // a command is sent exactly when the decision asks for one
    ensures Send(ChargeStart) in t.requests <==> t.outcome == Completed(Start)
    ensures Send(ChargeStop) in t.requests <==> t.outcome == Completed(Stop)
  {
    match car
    case None => Trace(NoVehicle, [])
    case Some(state) =>
      var wake := if state != Online then [WakeUp] else [];
      if state != Online && !wakeReached then
        Trace(WakeFailed, wake)
      else
        match fetched
        case None => Trace(FetchFailed, wake + [FetchData])
        case Some(cs) =>
          var d := Decide(IsCharging(cs), solarPowerKw, cs.batteryLevel);
          Trace(Completed(d), wake + [FetchData] + CommandRequests(d))
  }

  /**
    run_automation_logic: one cycle against the first listed car. Only that
    car changes: its log grows by exactly the requests `Cycle` describes, it
    is online after a successful wake-up and carries the refreshed data after
    a successful refresh.
   */
  method RunAutomationLogic(
    vehicles: seq<Vehicle>, wakeReached: bool, fetched: Option<ChargeState>,
    apiKey: Option<string>, response: Solplanet.Response)
    returns (outcome: Outcome)
    modifies if vehicles == [] then {} else {vehicles[0]}
    ensures vehicles == [] ==> outcome == NoVehicle
    ensures vehicles != [] ==>
      var t := Cycle(Some(old(vehicles[0].state)), wakeReached, fetched, Solplanet.SolarReading(apiKey, response));
      && outcome == t.outcome
      && vehicles[0].requests == old(vehicles[0].requests) + t.requests
    ensures vehicles != [] ==>
      vehicles[0].state == if old(vehicles[0].state) != Online && wakeReached then Online else old(vehicles[0].state)
    ensures vehicles != [] ==>
      vehicles[0].chargeState ==
        if outcome == WakeFailed || fetched == None then old(vehicles[0].chargeState) else fetched.value
  {
    if vehicles == [] {
      return NoVehicle;
    }
    var car := vehicles[0];
    if car.state != Online {
      var woke := car.SyncWakeUp(wakeReached);
      if !woke {
        return WakeFailed;
      }
    }
    var refreshed := car.GetVehicleData(fetched);
    if !refreshed {
      return FetchFailed;
    }
    var isCharging := car.chargeState.chargingState == Charging;
    var batteryLevel := car.chargeState.batteryLevel;
    var solarPowerKw := Solplanet.SolarReading(apiKey, response);
    var decision := Decide(isCharging, solarPowerKw, batteryLevel);
    if decision == Start {
      car.Command(ChargeStart);
    } else if decision == Stop {
      car.Command(ChargeStop);
    }
    outcome := Completed(decision);
  }

  /**
    The fail-safe of the solar reader: whenever the inverter's value is not
    available, the reading is 0 kW and the cycle never starts charging.
   */
  lemma UnavailableSolarNeverStarts(apiKey: Option<string>, response: Solplanet.Response, isCharging: bool, batteryLevel: int)
    requires !Solplanet.Available(apiKey, response)
    ensures Decide(isCharging, Solplanet.SolarReading(apiKey, response), batteryLevel) != Start
  {
    ZeroSolarNeverStarts(isCharging, batteryLevel);
  }
}
