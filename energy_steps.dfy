/**
 * One iteration of each worker, as arithmetic on the battery's charge: the
 * charging worker moves power from a source into a battery net of the devices'
 * draw, and the power worker takes a device's power out of a battery. The runs
 * repeat a step a bounded number of times, standing for however many ticks the
 * scheduler grants.
 */
module EnergySteps {

  function Min(a: real, b: real): real {
    if a <= b then a else b
  }

  function Max(a: real, b: real): real {
    if a >= b then a else b
  }

  /** What one charging iteration does and what it logs. */
  datatype ChargeOutcome =
    | Exit                                  // battery full and nothing drawn: the worker ends
    | Charged(amount: real, charge: real)   // positive net: the amount added, no pause follows
    | Drained(net: real, charge: real)      // net not positive: charge + net floored at zero

  /**
   * The body of the charging worker's synchronized block for a battery at
   * `charge` out of `capacity`, a source with `output` and a total device `draw`.
   */
  function ChargeStep(charge: real, capacity: real, maxChargeRate: real, output: real, draw: real): (o: ChargeOutcome)
    ensures o.Exit? <==> capacity - charge <= 0.0 && draw <= 0.0
    ensures o.Charged? ==> o.charge == charge + o.amount && o.amount <= capacity - charge
    ensures o.Drained? ==> o.net <= 0.0 && o.charge >= 0.0
  {
    var chargePower := Min(maxChargeRate, output);
    var deficit := capacity - charge;
    if deficit <= 0.0 && draw <= 0.0 then Exit
    else
      var net := chargePower - draw;
      if net > 0.0 then
        var amount := Min(net, deficit);
        Charged(amount, charge + amount)
      else Drained(net, Max(0.0, charge + net))
  }

  /** The charge a step leaves behind; an exit leaves it where it was. */
  function ChargeAfter(charge: real, o: ChargeOutcome): real {
    match o
    case Exit => charge
    case Charged(_, c) => c
    case Drained(_, c) => c
  }

  /** A charge within `[0, capacity]` stays there, whatever the rates, output and draw. */
  lemma ChargeStepInBounds(charge: real, capacity: real, maxChargeRate: real, output: real, draw: real)
    requires 0.0 <= charge <= capacity
    ensures var c := ChargeAfter(charge, ChargeStep(charge, capacity, maxChargeRate, output, draw));
            0.0 <= c <= capacity
  {
  }

  /** The step's arithmetic in the two branches, stated outright. */
  lemma ChargeStepBranches(charge: real, capacity: real, maxChargeRate: real, output: real, draw: real)
    requires !(capacity - charge <= 0.0 && draw <= 0.0)
    ensures var net, o := Min(maxChargeRate, output) - draw, ChargeStep(charge, capacity, maxChargeRate, output, draw);
            (net > 0.0 ==> o == Charged(Min(net, capacity - charge), charge + Min(net, capacity - charge))) &&
            (net <= 0.0 ==> o == Drained(net, Max(0.0, charge + net)))
  {
  }

  /**
   * Full battery, some draw below the charge power: the step adds nothing and
   * does not exit, so the worker repeats it without pausing.
   */
  lemma FullBatterySpins(capacity: real, maxChargeRate: real, output: real, draw: real)
    requires 0.0 < draw < Min(maxChargeRate, output)
    ensures ChargeStep(capacity, capacity, maxChargeRate, output, draw) == Charged(0.0, capacity)
  {
  }

  /** The outcome of repeating the charging step. */
  datatype ChargeRun = ChargeRun(charge: real, exited: bool, logged: seq<real>)

  /**
   * Up to `fuel` charging iterations from `charge`, stopping at an exit; `logged`
   * holds the amount each non-exit iteration reports, in order.
   */
  function RunCharge(charge: real, capacity: real, maxChargeRate: real, output: real, draw: real, fuel: nat): (r: ChargeRun)
    ensures |r.logged| <= fuel
    ensures r.exited ==> capacity - r.charge <= 0.0 && draw <= 0.0
    decreases fuel
  {
    if fuel == 0 then ChargeRun(charge, false, [])
    else
      match ChargeStep(charge, capacity, maxChargeRate, output, draw)
      case Exit => ChargeRun(charge, true, [])
      case Charged(amount, c) =>
        var rest := RunCharge(c, capacity, maxChargeRate, output, draw, fuel - 1);
        ChargeRun(rest.charge, rest.exited, [amount] + rest.logged)
      case Drained(net, c) =>
        var rest := RunCharge(c, capacity, maxChargeRate, output, draw, fuel - 1);
        ChargeRun(rest.charge, rest.exited, [net] + rest.logged)
  }

  /** However many iterations run, the charge stays within `[0, capacity]`. */
  lemma {:induction false} RunChargeInBounds(charge: real, capacity: real, maxChargeRate: real, output: real,
                                              draw: real, fuel: nat)
    requires 0.0 <= charge <= capacity
    ensures 0.0 <= RunCharge(charge, capacity, maxChargeRate, output, draw, fuel).charge <= capacity
    decreases fuel
  {
    if fuel > 0 {
      var o := ChargeStep(charge, capacity, maxChargeRate, output, draw);
      ChargeStepInBounds(charge, capacity, maxChargeRate, output, draw);
      if !o.Exit? {
        RunChargeInBounds(ChargeAfter(charge, o), capacity, maxChargeRate, output, draw, fuel - 1);
      }
    }
  }

  /** With nothing drawn and a non-negative charge power, the charge never falls. */
  lemma {:induction false} RunChargeMonotone(charge: real, capacity: real, maxChargeRate: real, output: real,
                                              fuel: nat)
    requires 0.0 <= charge <= capacity && Min(maxChargeRate, output) >= 0.0
    ensures charge <= RunCharge(charge, capacity, maxChargeRate, output, 0.0, fuel).charge
    decreases fuel
  {
    if fuel > 0 {
      var o := ChargeStep(charge, capacity, maxChargeRate, output, 0.0);
      ChargeStepInBounds(charge, capacity, maxChargeRate, output, 0.0);
      if !o.Exit? {
        RunChargeMonotone(ChargeAfter(charge, o), capacity, maxChargeRate, output, fuel - 1);
      }
    }
  }

  /**
   * With nothing drawn and a positive charge power `p`, `n` iterations with
   * `n * p` covering the deficit fill the battery, and the next one exits.
   */
  lemma {:induction false} RunChargeFills(charge: real, capacity: real, maxChargeRate: real, output: real, n: nat)
    requires 0.0 <= charge <= capacity && Min(maxChargeRate, output) > 0.0
    requires (n as real) * Min(maxChargeRate, output) >= capacity - charge
    ensures RunCharge(charge, capacity, maxChargeRate, output, 0.0, n + 1).charge == capacity
    ensures RunCharge(charge, capacity, maxChargeRate, output, 0.0, n + 1).exited
    decreases n
  {
    var p := Min(maxChargeRate, output);
    if charge < capacity {
      assert n > 0;
      var c := charge + Min(p, capacity - charge);
      assert ((n - 1) as real) * p == (n as real) * p - p;
      RunChargeFills(c, capacity, maxChargeRate, output, n - 1);
    }
  }

  /** What one powering iteration does. */
  datatype PowerOutcome =
    | Consumed(charge: real)   // enough charge: the device's power is taken out
    | SwitchedOff              // too little: the device is switched off, charge untouched

  /** The body of the power worker's synchronized block. */
  function PowerStep(charge: real, power: real): (o: PowerOutcome)
    ensures o.Consumed? <==> charge >= power
    ensures o.Consumed? ==> o.charge + power == charge
  {
    if charge >= power then Consumed(charge - power) else SwitchedOff
  }

  /** A device with non-negative power keeps a charge within `[0, capacity]` there. */
  lemma PowerStepInBounds(charge: real, capacity: real, power: real)
    requires 0.0 <= charge <= capacity && power >= 0.0
    ensures PowerStep(charge, power).Consumed? ==> 0.0 <= PowerStep(charge, power).charge <= capacity
  {
  }

  /** The outcome of repeating the powering step. */
  datatype PowerRun = PowerRun(charge: real, switchedOff: bool, consumed: nat)

  /** Up to `fuel` powering iterations from `charge`, stopping when the device is switched off. */
  function RunPower(charge: real, power: real, fuel: nat): (r: PowerRun)
    ensures r.consumed <= fuel
    ensures r.switchedOff ==> r.charge < power
    decreases fuel
  {
    if fuel == 0 then PowerRun(charge, false, 0)
    else
      match PowerStep(charge, power)
      case SwitchedOff => PowerRun(charge, true, 0)
      case Consumed(c) =>
        var rest := RunPower(c, power, fuel - 1);
        PowerRun(rest.charge, rest.switchedOff, rest.consumed + 1)
  }

  /** Each completed iteration takes exactly `power` out. */
  lemma {:induction false} RunPowerDrains(charge: real, power: real, fuel: nat)
    ensures var r := RunPower(charge, power, fuel);
            r.charge == charge - (r.consumed as real) * power
    decreases fuel
  {
    if fuel > 0 && charge >= power {
      RunPowerDrains(charge - power, power, fuel - 1);
      var r := RunPower(charge - power, power, fuel - 1);
      assert ((r.consumed + 1) as real) * power == (r.consumed as real) * power + power;
    }
  }

  /** A device with positive power cannot keep drawing: `n` iterations with `n * power` above the charge switch it off. */
  lemma {:induction false} RunPowerSwitchesOff(charge: real, power: real, n: nat)
    requires power > 0.0 && charge >= 0.0 && (n as real) * power > charge
    ensures RunPower(charge, power, n).switchedOff
    decreases n
  {
    if charge >= power {
      assert ((n - 1) as real) * power == (n as real) * power - power;
      RunPowerSwitchesOff(charge - power, power, n - 1);
    }
  }

  /** With non-negative power the charge stays within `[0, capacity]` over a run. */
  lemma {:induction false} RunPowerInBounds(charge: real, capacity: real, power: real, fuel: nat)
    requires 0.0 <= charge <= capacity && power >= 0.0
    ensures 0.0 <= RunPower(charge, power, fuel).charge <= capacity
    decreases fuel
  {
    if fuel > 0 && charge >= power {
      RunPowerInBounds(charge - power, capacity, power, fuel - 1);
    }
  }
}
