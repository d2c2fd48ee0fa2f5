/**
 * The energy manager: batteries and energy sources keyed by id, the guards
 * that start and stop charging and powering, the two workers (one iteration
 * each of charging a battery from a source and of powering a device from a
 * battery) and the two supervisors that keep the workers' futures. Each
 * worker or supervisor is run sequentially here; what other threads do
 * meanwhile reaches a supervisor as a sequence of observations.
 */
module EnergyService {
  import opened Results
  import opened Model
  import opened LoggerHelper
  import opened DeviceService
  import opened EnergySteps
  import opened Reconciliation

  /** What `startCharging` did once the battery was found. */
  datatype ChargeStart = AlreadyCharging | NoActiveEnergy | ChargingStarted

  /** What `startPower` did once the device and the battery were found. */
  datatype PowerStart = AlreadyActive | SupervisorStarted | JoinedActive

  /** The events a charging worker logs for the amounts its iterations report, in order. */
  function ChargingLog(batteryName: string, energyName: string, render: real -> string, amounts: seq<real>): (es: seq<Event>)
    ensures |es| == 2 * |amounts|
    ensures forall i | 0 <= i < |amounts| ::
              es[2 * i..2 * i + 2] == ChargingEvents(batteryName, energyName, render(amounts[i]))
  {
    if amounts == [] then []
    else
      var init := ChargingLog(batteryName, energyName, render, amounts[..|amounts| - 1]);
      var last := ChargingEvents(batteryName, energyName, render(amounts[|amounts| - 1]));
      assert forall i | 0 <= i < |amounts| - 1 :: (init + last)[2 * i..2 * i + 2] == init[2 * i..2 * i + 2];
      init + last
  }

  /** `n` copies of `pair`, followed by `last` when the run `ended` with it. */
  function Repeated<T>(pair: seq<T>, n: nat, last: seq<T>, ended: bool): (es: seq<T>)
    ensures |es| == n * |pair| + (if ended then |last| else 0)
  {
    if ended then Repeated(pair, n, last, false) + last
    else if n == 0 then []
    else Repeated(pair, n - 1, last, false) + pair
  }

  /** Read back pair by pair: copy `i` sits at `2 * i`, and `last` at the end. */
  lemma {:induction false} RepeatedPairs<T>(pair: seq<T>, n: nat, last: seq<T>, ended: bool)
    requires |pair| == 2
    ensures var es := Repeated(pair, n, last, ended);
            (forall i | 0 <= i < n :: es[2 * i..2 * i + 2] == pair) &&
            (ended ==> es[2 * n..] == last)
    decreases n, ended
  {
    if ended {
      RepeatedPairs(pair, n, last, false);
      var init := Repeated(pair, n, last, false);
      assert forall i | 0 <= i < n :: (init + last)[2 * i..2 * i + 2] == init[2 * i..2 * i + 2];
    } else if n > 0 {
      RepeatedPairs(pair, n - 1, last, false);
      var init := Repeated(pair, n - 1, last, false);
      assert forall i | 0 <= i < n - 1 :: (init + pair)[2 * i..2 * i + 2] == init[2 * i..2 * i + 2];
      assert (init + pair)[2 * (n - 1)..2 * n] == pair;
    }
  }

  /**
   * The power worker's log: a "Consuming power" pair per iteration that found
   * enough charge, then the low-battery pair if the device was switched off.
   */
  function PowerLog(deviceName: string, batteryName: string, consumed: nat, switchedOff: bool): seq<Event> {
    Repeated(DevicePowerEvents("Consuming power", deviceName, batteryName), consumed,
             DevicePowerEvents("Powered off due to low battery", deviceName, batteryName), switchedOff)
  }

  /** The power log read back pair by pair. */
  lemma PowerLogPairs(deviceName: string, batteryName: string, consumed: nat, switchedOff: bool)
    ensures var es := PowerLog(deviceName, batteryName, consumed, switchedOff);
            |es| == 2 * consumed + (if switchedOff then 2 else 0) &&
            (forall i | 0 <= i < consumed ::
               es[2 * i..2 * i + 2] == DevicePowerEvents("Consuming power", deviceName, batteryName)) &&
            (switchedOff ==>
               es[2 * consumed..] == DevicePowerEvents("Powered off due to low battery", deviceName, batteryName))
  {
    RepeatedPairs(DevicePowerEvents("Consuming power", deviceName, batteryName), consumed,
                  DevicePowerEvents("Powered off due to low battery", deviceName, batteryName), switchedOff);
  }

  /** A run's tail after the amounts already logged. */
  function Resume(logged: seq<real>, rest: ChargeRun): ChargeRun {
    ChargeRun(rest.charge, rest.exited, logged + rest.logged)
  }

  lemma ResumeAppend(logged: seq<real>, amount: real, rest: ChargeRun)
    ensures Resume(logged, ChargeRun(rest.charge, rest.exited, [amount] + rest.logged)) ==
            Resume(logged + [amount], rest)
  {
    assert logged + ([amount] + rest.logged) == logged + [amount] + rest.logged;
  }

  /** One charging iteration that does not exit, then the remaining ones. */
  lemma RunChargeUnfold(charge: real, capacity: real, maxChargeRate: real, output: real, draw: real, fuel: nat)
    requires fuel > 0 && !ChargeStep(charge, capacity, maxChargeRate, output, draw).Exit?
    ensures var o := ChargeStep(charge, capacity, maxChargeRate, output, draw);
            var rest := RunCharge(ChargeAfter(charge, o), capacity, maxChargeRate, output, draw, fuel - 1);
            RunCharge(charge, capacity, maxChargeRate, output, draw, fuel) ==
            ChargeRun(rest.charge, rest.exited, [if o.Charged? then o.amount else o.net] + rest.logged)
  {
  }

  /** Logging one more amount appends its pair of events. */
  lemma ChargingLogAppend(batteryName: string, energyName: string, render: real -> string, amounts: seq<real>, amount: real)
    ensures ChargingLog(batteryName, energyName, render, amounts + [amount]) ==
            ChargingLog(batteryName, energyName, render, amounts) + ChargingEvents(batteryName, energyName, render(amount))
  {
    assert (amounts + [amount])[..|amounts|] == amounts;
  }

  /** A power run's tail after `consumed` iterations already done. */
  function Shift(consumed: nat, rest: PowerRun): PowerRun {
    PowerRun(rest.charge, rest.switchedOff, consumed + rest.consumed)
  }

  /** One powering iteration with enough charge, then the remaining ones. */
  lemma RunPowerUnfold(charge: real, power: real, fuel: nat, consumed: nat)
    requires fuel > 0 && charge >= power
    ensures Shift(consumed, RunPower(charge, power, fuel)) ==
            Shift(consumed + 1, RunPower(charge - power, power, fuel - 1))
  {
  }

  /** The list a stream over a set yields, in some order, each element once. */
  method ToSeq<T>(s: set<T>) returns (xs: seq<T>)
    ensures |xs| == |s|
    ensures forall x | x in xs :: x in s
    ensures forall x | x in s :: x in xs
  {
    xs := [];
    var rest := s;
    while rest != {}
      invariant rest <= s
      invariant forall x | x in xs :: x in s && x !in rest
      invariant forall x | x in s :: x in xs || x in rest
      invariant |xs| + |rest| == |s|
      decreases rest
    {
      var x :| x in rest;
      xs := xs + [x];
      rest := rest - {x};
    }
  }

  class EnergyManager {
    var batteries: map<string, Battery>
    var energies: map<string, Energy>
    const deviceManager: DeviceManager

    /** Every battery and every source is stored under its own id. */
    predicate Keyed()
      reads this
    {
      (forall id | id in batteries :: batteries[id].id == id) &&
      (forall id | id in energies :: energies[id].id == id)
    }

    constructor (deviceManager: DeviceManager)
      ensures batteries == map[] && energies == map[] && this.deviceManager == deviceManager
    {
      batteries := map[];
      energies := map[];
      this.deviceManager := deviceManager;
    }

    // -------------------------------------------------------------------------
    // Registries

    /** `addEnergy`: inserts, or overwrites the source with the same id. */
    method AddEnergy(energy: Energy) returns (events: seq<Event>)
      modifies this
      ensures energies == old(energies)[energy.id := energy] && batteries == old(batteries)
      ensures events == [EnergyEvent("Added new energy", energy.name)]
      ensures old(Keyed()) ==> Keyed()
    {
      energies := energies[energy.id := energy];
      events := [EnergyEvent("Added new energy", energy.name)];
    }

    /** `addBattery`: inserts, or overwrites the battery with the same id. */
    method AddBattery(battery: Battery) returns (events: seq<Event>)
      modifies this
      ensures batteries == old(batteries)[battery.id := battery] && energies == old(energies)
      ensures events == [BatteryEvent("Added new battery", battery.name)]
      ensures old(Keyed()) ==> Keyed()
    {
      batteries := batteries[battery.id := battery];
      events := [BatteryEvent("Added new battery", battery.name)];
    }

    /** `getBatteryById`: the stored battery, or the exception for an unknown id. */
    function GetBatteryById(batteryId: string): (r: Result<Battery>)
      reads this
      ensures r.Ok? <==> batteryId in batteries
      ensures r.Ok? ==> r.value == batteries[batteryId]
      ensures r.Err? ==> r.error == IllegalArgument("Battery not found: " + batteryId)
      ensures Keyed() && r.Ok? ==> r.value.id == batteryId
    {
      if batteryId in batteries then Ok(batteries[batteryId])
      else Err(IllegalArgument("Battery not found: " + batteryId))
    }

    /** `getEnergyById`: the stored source, or the exception for an unknown id. */
    function GetEnergyById(energyId: string): (r: Result<Energy>)
      reads this
      ensures r.Ok? <==> energyId in energies
      ensures r.Ok? ==> r.value == energies[energyId]
      ensures r.Err? ==> r.error == IllegalArgument("Energy not found: " + energyId)
      ensures Keyed() && r.Ok? ==> r.value.id == energyId
    {
      if energyId in energies then Ok(energies[energyId])
      else Err(IllegalArgument("Energy not found: " + energyId))
    }

    /** After an add, the lookup returns the record just added. */
    lemma LookupAfterAdd(old_batteries: map<string, Battery>, battery: Battery)
      requires batteries == old_batteries[battery.id := battery]
      ensures GetBatteryById(battery.id) == Ok(battery)
    {
    }

    /** `getAllBatteries`: every stored battery, and with ids kept, only those, each found by its id. */
    function AllBatteries(): (r: set<Battery>)
      reads this
      ensures forall id | id in batteries :: batteries[id] in r
      ensures Keyed() ==> forall b | b in r :: b.id in batteries && batteries[b.id] == b
    {
      batteries.Values
    }

    /** `getAllEnergies`: every stored source, and with ids kept, only those, each found by its id. */
    function AllEnergies(): (r: set<Energy>)
      reads this
      ensures forall id | id in energies :: energies[id] in r
      ensures Keyed() ==> forall e | e in r :: e.id in energies && energies[e.id] == e
    {
      energies.Values
    }

    /** `removeBatteryById`: drops only that key; an unknown id changes nothing and logs nothing. */
    method RemoveBatteryById(batteryId: string) returns (events: seq<Event>)
      modifies this
      ensures batteries == old(batteries) - {batteryId} && energies == old(energies)
      ensures batteryId in old(batteries) ==> events == [BatteryEvent("Removed battery", old(batteries)[batteryId].name)]
      ensures batteryId !in old(batteries) ==> events == []
      ensures old(Keyed()) ==> Keyed()
    {
      if batteryId in batteries {
        events := [BatteryEvent("Removed battery", batteries[batteryId].name)];
      } else {
        events := [];
      }
      batteries := batteries - {batteryId};
    }

    /** `removeEnergyById`: drops only that key; an unknown id changes nothing and logs nothing. */
    method RemoveEnergyById(energyId: string) returns (events: seq<Event>)
      modifies this
      ensures energies == old(energies) - {energyId} && batteries == old(batteries)
      ensures energyId in old(energies) ==> events == [EnergyEvent("Removed energy", old(energies)[energyId].name)]
      ensures energyId !in old(energies) ==> events == []
      ensures old(Keyed()) ==> Keyed()
    {
      if energyId in energies {
        events := [EnergyEvent("Removed energy", energies[energyId].name)];
      } else {
        events := [];
      }
      energies := energies - {energyId};
    }

    /** `getBatteriesByState`: the stored batteries whose charging flag equals `isCharging`. */
    function BatteriesByState(isCharging: bool): (r: set<Battery>)
      reads this, batteries.Values
      ensures r <= AllBatteries()
      ensures forall b | b in r :: b.isCharging == isCharging
      ensures forall b | b in AllBatteries() && b.isCharging == isCharging :: b in r
    {
      set b | b in batteries.Values && b.isCharging == isCharging
    }

    /** `getEnergiesByState`: the stored sources whose active flag equals `isActive`. */
    function EnergiesByState(isActive: bool): (r: set<Energy>)
      reads this, energies.Values
      ensures r <= AllEnergies()
      ensures forall e | e in r :: e.isActive == isActive
      ensures forall e | e in AllEnergies() && e.isActive == isActive :: e in r
    {
      set e | e in energies.Values && e.isActive == isActive
    }

    /** The two state filters split each registry. */
    lemma StatesPartition()
      ensures BatteriesByState(true) + BatteriesByState(false) == AllBatteries()
      ensures BatteriesByState(true) * BatteriesByState(false) == {}
      ensures EnergiesByState(true) + EnergiesByState(false) == AllEnergies()
      ensures EnergiesByState(true) * EnergiesByState(false) == {}
    {
    }

    /** `clearAllEnergies`. */
    method ClearAllEnergies()
      modifies this
      ensures energies == map[] && batteries == old(batteries)
    {
      energies := map[];
    }

    /** `clearAllBatteries`. */
    method ClearAllBatteries()
      modifies this
      ensures batteries == map[] && energies == old(energies)
    {
      batteries := map[];
    }

    /** `toggleEnergyById`: negates that source's flag only and logs the new state. */
    method ToggleEnergyById(energyId: string) returns (r: Result<seq<Event>>)
      modifies if energyId in energies then {energies[energyId]} else {}
      ensures energyId !in energies ==> r == Err(IllegalArgument("Energy not found: " + energyId))
      ensures energyId in energies ==>
                energies[energyId].isActive == !old(energies[energyId].isActive) &&
                r == Ok([EnergyEvent(if energies[energyId].isActive then "Activated energy" else "Deactivated energy",
                                     energies[energyId].name)])
    {
      var found := GetEnergyById(energyId);
      if found.Err? {
        return Err(found.error);
      }
      var energy := found.value;
      energy.Toggle();
      r := Ok([EnergyEvent(if energy.isActive then "Activated energy" else "Deactivated energy", energy.name)]);
    }

    // -------------------------------------------------------------------------
    // Guards

    /**
     * `startCharging`: an unknown battery throws; a battery already charging
     * or a house with no active source is left alone; otherwise the battery's
     * flag is set and the charging supervisor is started.
     */
    method StartCharging(batteryId: string) returns (r: Result<ChargeStart>)
      modifies if batteryId in batteries then {batteries[batteryId]} else {}
      ensures batteryId !in batteries ==> r == Err(IllegalArgument("Battery not found: " + batteryId))
      ensures batteryId in batteries && old(batteries[batteryId].isCharging) ==>
                r == Ok(AlreadyCharging) && batteries[batteryId].isCharging
      ensures batteryId in batteries && !old(batteries[batteryId].isCharging) && EnergiesByState(true) == {} ==>
                r == Ok(NoActiveEnergy) && !batteries[batteryId].isCharging
      ensures batteryId in batteries && !old(batteries[batteryId].isCharging) && EnergiesByState(true) != {} ==>
                r == Ok(ChargingStarted) && batteries[batteryId].isCharging
      ensures batteryId in batteries ==> batteries[batteryId].currentCharge == old(batteries[batteryId].currentCharge)
    {
      var found := GetBatteryById(batteryId);
      if found.Err? {
        return Err(found.error);
      }
      var battery := found.value;
      if battery.isCharging {
        return Ok(AlreadyCharging);
      }
      if EnergiesByState(true) == {} {
        return Ok(NoActiveEnergy);
      }
      battery.isCharging := true;
      r := Ok(ChargingStarted);
    }

    /** `stopCharging`: clears that battery's flag only, and logs it. */
    method StopCharging(batteryId: string) returns (r: Result<seq<Event>>)
      modifies if batteryId in batteries then {batteries[batteryId]} else {}
      ensures batteryId !in batteries ==> r == Err(IllegalArgument("Battery not found: " + batteryId))
      ensures batteryId in batteries ==>
                !batteries[batteryId].isCharging &&
                batteries[batteryId].currentCharge == old(batteries[batteryId].currentCharge) &&
                r == Ok([BatteryEvent("Stopped charging", batteries[batteryId].name)])
    {
      var found := GetBatteryById(batteryId);
      if found.Err? {
        return Err(found.error);
      }
      var battery := found.value;
      battery.isCharging := false;
      r := Ok([BatteryEvent("Stopped charging", battery.name)]);
    }

    /**
     * `startPower`: the device is looked up first, then the battery; a device
     * already on is left alone; otherwise it is switched on, and a power
     * supervisor is started only when no device was active before.
     */
    method StartPower(deviceId: string, batteryId: string) returns (r: Result<PowerStart>)
      modifies if deviceId in deviceManager.devices then {deviceManager.devices[deviceId]} else {}
      ensures deviceId !in deviceManager.devices ==> r == Err(IllegalArgument("Device not found: " + deviceId))
      ensures deviceId in deviceManager.devices && batteryId !in batteries ==>
                r == Err(IllegalArgument("Battery not found: " + batteryId)) &&
                deviceManager.devices[deviceId].isActive == old(deviceManager.devices[deviceId].isActive)
      ensures deviceId in deviceManager.devices && batteryId in batteries ==>
                deviceManager.devices[deviceId].isActive &&
                (old(deviceManager.devices[deviceId].isActive) ==> r == Ok(AlreadyActive)) &&
                (!old(deviceManager.devices[deviceId].isActive) && old(deviceManager.DevicesByState(true)) == {} ==>
                   r == Ok(SupervisorStarted)) &&
                (!old(deviceManager.devices[deviceId].isActive) && old(deviceManager.DevicesByState(true)) != {} ==>
                   r == Ok(JoinedActive))
    {
      var foundDevice := deviceManager.GetDeviceById(deviceId);
      if foundDevice.Err? {
        return Err(foundDevice.error);
      }
      var foundBattery := GetBatteryById(batteryId);
      if foundBattery.Err? {
        return Err(foundBattery.error);
      }
      var device := foundDevice.value;
      if device.isActive {
        return Ok(AlreadyActive);
      }
      if deviceManager.DevicesByState(true) == {} {
        device.isActive := true;
        r := Ok(SupervisorStarted);
      } else {
        device.isActive := true;
        r := Ok(JoinedActive);
      }
    }

    /** `stopPowerDevice`: both looked up, the device switched off, the power-off pair logged. */
    method StopPowerDevice(deviceId: string, batteryId: string) returns (r: Result<seq<Event>>)
      modifies if deviceId in deviceManager.devices then {deviceManager.devices[deviceId]} else {}
      ensures deviceId !in deviceManager.devices ==> r == Err(IllegalArgument("Device not found: " + deviceId))
      ensures deviceId in deviceManager.devices && batteryId !in batteries ==>
                r == Err(IllegalArgument("Battery not found: " + batteryId)) &&
                deviceManager.devices[deviceId].isActive == old(deviceManager.devices[deviceId].isActive)
      ensures deviceId in deviceManager.devices && batteryId in batteries ==>
                !deviceManager.devices[deviceId].isActive &&
                r == Ok(DevicePowerEvents("Powered off", deviceManager.devices[deviceId].name, batteries[batteryId].name))
    {
      var foundDevice := deviceManager.GetDeviceById(deviceId);
      if foundDevice.Err? {
        return Err(foundDevice.error);
      }
      var foundBattery := GetBatteryById(batteryId);
      if foundBattery.Err? {
        return Err(foundBattery.error);
      }
      var device := foundDevice.value;
      device.isActive := false;
      r := Ok(DevicePowerEvents("Powered off", device.name, foundBattery.value.name));
    }

    /** `shutdown`'s flag resets: every source off, no battery charging, every device off. */
    method Shutdown()
      modifies energies.Values, batteries.Values, deviceManager.devices.Values
      ensures forall e | e in energies.Values :: !e.isActive
      ensures forall b | b in batteries.Values :: !b.isCharging
      ensures forall b | b in batteries.Values :: b.currentCharge == old(b.currentCharge)
      ensures forall d | d in deviceManager.devices.Values :: !d.isActive
    {
      forall e | e in energies.Values {
        e.isActive := false;
      }
      forall b | b in batteries.Values {
        b.isCharging := false;
      }
      forall d | d in deviceManager.devices.Values {
        d.isActive := false;
      }
    }

    // -------------------------------------------------------------------------
    // Workers

    /**
     * One pass of `chargeFromEnergy`'s synchronized block: reads the devices'
     * total draw and applies the charge step to the battery.
     */
    method ChargeIteration(battery: Battery, energy: Energy) returns (outcome: ChargeOutcome)
      modifies battery
      ensures outcome == ChargeStep(old(battery.currentCharge), battery.capacity, battery.maxChargeRate, energy.output,
                                    ActivePower(deviceManager.AllDevices()))
      ensures battery.currentCharge == ChargeAfter(old(battery.currentCharge), outcome)
      ensures battery.isCharging == old(battery.isCharging)
      ensures ActivePower(deviceManager.AllDevices()) == old(ActivePower(deviceManager.AllDevices()))
    {
      var consumption := deviceManager.GetTotalConsumption();
      outcome := ChargeStep(battery.currentCharge, battery.capacity, battery.maxChargeRate, energy.output, consumption);
      battery.currentCharge := ChargeAfter(battery.currentCharge, outcome);
    }

    /**
     * `chargeFromEnergy`, granted at most `fuel` iterations: while the battery
     * is charging, each iteration applies the charge step with the devices'
     * current total draw, logging the pair of charging events, until the step
     * exits. `render` stands for the `%.2f` formatting of the amount.
     */
    method ChargeFromEnergy(battery: Battery, energy: Energy, render: real -> string, fuel: nat)
      returns (events: seq<Event>, exited: bool)
      modifies battery
      ensures battery.isCharging == old(battery.isCharging)
      ensures !old(battery.isCharging) ==>
                battery.currentCharge == old(battery.currentCharge) && events == [] && !exited
      ensures old(battery.isCharging) ==>
                var r := RunCharge(old(battery.currentCharge), battery.capacity, battery.maxChargeRate, energy.output,
                                   ActivePower(deviceManager.AllDevices()), fuel);
                battery.currentCharge == r.charge && exited == r.exited &&
                events == ChargingLog(battery.name, energy.name, render, r.logged)
    {
      ghost var start := battery.currentCharge;
      ghost var logged: seq<real> := [];
      ghost var draw := ActivePower(deviceManager.AllDevices());
      events := [];
      exited := false;
      var steps := 0;
      while steps < fuel && battery.isCharging && !exited
        invariant 0 <= steps <= fuel
        invariant battery.isCharging == old(battery.isCharging)
        invariant !battery.isCharging ==> battery.currentCharge == start && events == [] && !exited
        invariant RunCharge(start, battery.capacity, battery.maxChargeRate, energy.output, draw, fuel) ==
                  if exited then ChargeRun(battery.currentCharge, true, logged)
                  else Resume(logged, RunCharge(battery.currentCharge, battery.capacity, battery.maxChargeRate,
                                                energy.output, draw, fuel - steps))
        invariant events == ChargingLog(battery.name, energy.name, render, logged)
        invariant ActivePower(deviceManager.AllDevices()) == draw
        decreases fuel - steps, !exited
      {
        ghost var before := battery.currentCharge;
        var outcome := ChargeIteration(battery, energy);
        if outcome.Exit? {
          exited := true;
        } else {
          var amount := if outcome.Charged? then outcome.amount else outcome.net;
          RunChargeUnfold(before, battery.capacity, battery.maxChargeRate, energy.output, draw, fuel - steps);
          ResumeAppend(logged, amount,
                       RunCharge(battery.currentCharge, battery.capacity, battery.maxChargeRate,
                                 energy.output, draw, fuel - steps - 1));
          ChargingLogAppend(battery.name, energy.name, render, logged, amount);
          events := events + ChargingEvents(battery.name, energy.name, render(amount));
          logged := logged + [amount];
          steps := steps + 1;
        }
      }
      assert logged + [] == logged;
    }

    /**
     * `powerFromBattery`, granted at most `fuel` iterations: while the device
     * is on, each iteration takes its power out of the battery, or switches
     * it off when the charge is too low; each logs its pair of events.
     */
    method PowerFromBattery(device: Device, battery: Battery, fuel: nat) returns (events: seq<Event>)
      modifies device, battery
      ensures battery.isCharging == old(battery.isCharging)
      ensures !old(device.isActive) ==>
                battery.currentCharge == old(battery.currentCharge) && !device.isActive && events == []
      ensures old(device.isActive) ==>
                var r := RunPower(old(battery.currentCharge), device.power, fuel);
                battery.currentCharge == r.charge && device.isActive == !r.switchedOff &&
                events == PowerLog(device.name, battery.name, r.consumed, r.switchedOff)
    {
      // The two pairs do not change between iterations, so they are assembled once.
      var consuming := DevicePowerEvents("Consuming power", device.name, battery.name);
      var lowBattery := DevicePowerEvents("Powered off due to low battery", device.name, battery.name);
      events := PowerLoop(device, battery, fuel, consuming, lowBattery);
    }

    // -------------------------------------------------------------------------
    // Supervisors

    /**
     * `manageChargingTasks`: snapshots the active sources, starts a worker for
     * each and runs the supervisor loop over what the other threads do
     * (`env`), the loop flag being the battery's charging flag. The result is
     * the supervisor run of `Reconciliation`, and the battery's flag is what
     * that run leaves: every way out clears it.
     */
    method ManageChargingTasks(battery: Battery, env: seq<Observation<Energy>>)
      returns (exit: Exit, initial: seq<Energy>, tasks: seq<Task<Energy>>)
      requires battery.isCharging
      modifies battery
      ensures |initial| == |old(EnergiesByState(true))|
      ensures forall e | e in initial :: e in old(EnergiesByState(true))
      ensures forall e | e in old(EnergiesByState(true)) :: e in initial
      ensures var r := Supervise(old(EnergiesByState(true)), Spawn(initial), true, env);
              exit == r.exit && tasks == r.tasks && battery.isCharging == r.flag
      ensures battery.currentCharge == old(battery.currentCharge)
    {
      var snapshot := EnergiesByState(true);
      initial := ToSeq(snapshot);
      exit, tasks := SuperviseCharging(battery, snapshot, Spawn(initial), env);
    }

    /**
     * `manageDevicePowerTask`: the same loop over the active devices for the
     * device that started it, with no flag to test; every way out switches
     * that one device off, and only that one.
     */
    method ManageDevicePowerTask(device: Device, env: seq<Observation<Device>>)
      returns (exit: Exit, initial: seq<Device>, tasks: seq<Task<Device>>)
      modifies device
      ensures |initial| == |old(deviceManager.DevicesByState(true))|
      ensures forall d | d in initial :: d in old(deviceManager.DevicesByState(true))
      ensures forall d | d in old(deviceManager.DevicesByState(true)) :: d in initial
      ensures var r := Supervise(old(deviceManager.DevicesByState(true)), Spawn(initial), false, env);
              exit == r.exit && tasks == r.tasks
      ensures exit != StillRunning ==> !device.isActive
      ensures exit == StillRunning ==> device.isActive == old(device.isActive)
    {
      var snapshot := deviceManager.DevicesByState(true);
      initial := ToSeq(snapshot);
      exit, tasks := SuperviseDevicePower(device, snapshot, Spawn(initial), env);
    }
  }

  /**
   * `powerFromBattery`'s loop, logging `consuming` after each iteration that
   * found enough charge and `lowBattery` after the one that switched the device off.
   */
  method PowerLoop(device: Device, battery: Battery, fuel: nat, consuming: seq<Event>, lowBattery: seq<Event>)
    returns (events: seq<Event>)
    modifies device, battery
    ensures battery.isCharging == old(battery.isCharging)
    ensures !old(device.isActive) ==>
              battery.currentCharge == old(battery.currentCharge) && !device.isActive && events == []
    ensures old(device.isActive) ==>
              var r := RunPower(old(battery.currentCharge), device.power, fuel);
              battery.currentCharge == r.charge && device.isActive == !r.switchedOff &&
              events == Repeated(consuming, r.consumed, lowBattery, r.switchedOff)
  {
    events := [];
    if !device.isActive {
      return;
    }
    ghost var whole := RunPower(battery.currentCharge, device.power, fuel);
    ghost var consumed: nat := 0;
    var steps := 0;
    while steps < fuel && device.isActive
      invariant 0 <= steps <= fuel && consumed == steps
      invariant battery.isCharging == old(battery.isCharging)
      invariant device.isActive ==> whole == Shift(consumed, RunPower(battery.currentCharge, device.power, fuel - steps))
      invariant !device.isActive ==> whole == PowerRun(battery.currentCharge, true, consumed)
      invariant events == Repeated(consuming, consumed, lowBattery, !device.isActive)
      decreases fuel - steps
    {
      ghost var before := battery.currentCharge;
      PowerIteration(device, battery);
      if !device.isActive {
        events := events + lowBattery;
        break;
      }
      events := events + consuming;
      RunPowerUnfold(before, device.power, fuel - steps, consumed);
      consumed := consumed + 1;
      steps := steps + 1;
    }
    assert whole.consumed == consumed && whole.switchedOff == !device.isActive;
  }

  /**
   * The synchronized block of one iteration on a device that is on: the
   * battery gives the device's power, or the device is switched off.
   */
  method PowerIteration(device: Device, battery: Battery)
    requires device.isActive
    modifies device, battery
    ensures battery.isCharging == old(battery.isCharging)
    ensures var o := PowerStep(old(battery.currentCharge), device.power);
            if o.Consumed? then battery.currentCharge == o.charge && device.isActive
            else battery.currentCharge == old(battery.currentCharge) && !device.isActive
  {
    if battery.currentCharge >= device.power {
      battery.currentCharge := battery.currentCharge - device.power;
    } else {
      device.isActive := false;
    }
  }

  /** The charging supervisor's loop from its first futures on; see `ManageChargingTasks`. */
  method SuperviseCharging(battery: Battery, snapshot: set<Energy>, start: seq<Task<Energy>>,
                           env: seq<Observation<Energy>>)
    returns (exit: Exit, tasks: seq<Task<Energy>>)
    requires battery.isCharging
    modifies battery
    ensures var r := Supervise(snapshot, start, true, env);
            exit == r.exit && tasks == r.tasks && battery.isCharging == r.flag
    ensures battery.currentCharge == old(battery.currentCharge)
  {
    tasks := start;
    exit := StillRunning;
    var i := 0;
    while i < |env| && exit == StillRunning
      invariant 0 <= i <= |env|
      invariant battery.currentCharge == old(battery.currentCharge)
      invariant exit == StillRunning ==>
                  battery.isCharging &&
                  Supervise(snapshot, start, true, env) == Supervise(snapshot, tasks, true, env[i..])
      invariant exit != StillRunning ==>
                  Supervise(snapshot, start, true, env) == SupervisorRun(exit, tasks, battery.isCharging)
      decreases |env| - i
    {
      var obs := env[i];
      battery.isCharging := obs.flag;
      if !battery.isCharging {
        tasks := CancelAll(tasks);
        exit := Stopped;
      } else {
        match Tick(snapshot, obs.active, Settle(tasks, obs.settled)) {
          case Continue(ts) =>
            tasks := ts;
          case Completes(ts) =>
            battery.isCharging := false;
            tasks := CancelAll(ts);
            exit := Finished;
          case Throws(ts) =>
            tasks := CancelAll(ts);
            battery.isCharging := false;
            exit := Aborted;
        }
      }
      i := i + 1;
    }
  }

  /** The device supervisor's loop from its first futures on; see `ManageDevicePowerTask`. */
  method SuperviseDevicePower(device: Device, snapshot: set<Device>, start: seq<Task<Device>>,
                              env: seq<Observation<Device>>)
    returns (exit: Exit, tasks: seq<Task<Device>>)
    modifies device
    ensures var r := Supervise(snapshot, start, false, env);
            exit == r.exit && tasks == r.tasks
    ensures exit != StillRunning ==> !device.isActive
    ensures exit == StillRunning ==> device.isActive == old(device.isActive)
  {
    tasks := start;
    exit := StillRunning;
    var i := 0;
    while i < |env| && exit == StillRunning
      invariant 0 <= i <= |env|
      invariant exit == StillRunning ==>
                  device.isActive == old(device.isActive) &&
                  Supervise(snapshot, start, false, env) == Supervise(snapshot, tasks, false, env[i..])
      invariant exit != StillRunning ==>
                  !device.isActive &&
                  Supervise(snapshot, start, false, env) == SupervisorRun(exit, tasks, false)
      decreases |env| - i
    {
      var obs := env[i];
      match Tick(snapshot, obs.active, Settle(tasks, obs.settled)) {
        case Continue(ts) =>
          tasks := ts;
        case Completes(ts) =>
          device.isActive := false;
          tasks := CancelAll(ts);
          exit := Finished;
        case Throws(ts) =>
          tasks := CancelAll(ts);
          device.isActive := false;
          exit := Aborted;
      }
      i := i + 1;
    }
  }

  /** A caller toggling the same source twice gets the original flag back. */
  method ToggleEnergyTwice(m: EnergyManager, energyId: string) returns (r: Result<seq<Event>>)
    requires energyId in m.energies
    modifies m.energies[energyId]
    ensures energyId in m.energies && m.energies[energyId].isActive == old(m.energies[energyId].isActive)
  {
    var _ := m.ToggleEnergyById(energyId);
    r := m.ToggleEnergyById(energyId);
  }
}
