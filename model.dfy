/**
 * The three records of the household grid. Each is an object that the managers
 * share by reference and update in place. Fields the core only reads are
 * constants; the flags and the charge level are variables.
 */
module Model {

  datatype DeviceType = Lighting | Appliance | Heating

  datatype EnergyType = Solar | Grid

  /** A consumer with a fixed per-tick draw `power`. */
  class Device {
    const id: string
    const name: string
    const deviceType: DeviceType
    const power: real
    var isActive: bool

    constructor (id: string, name: string, deviceType: DeviceType, isActive: bool, power: real)
      ensures this.id == id && this.name == name && this.deviceType == deviceType
      ensures this.isActive == isActive && this.power == power
    {
      this.id := id;
      this.name := name;
      this.deviceType := deviceType;
      this.isActive := isActive;
      this.power := power;
    }

    /** Negates the active flag; id, name, type and power are constants. */
    method Toggle()
      modifies this
      ensures isActive == !old(isActive)
    {
      isActive := !isActive;
    }

    /** The status line of the textual rendering. */
    function StatusText(): (s: string)
      reads this
      ensures (s == "Active") == isActive
      ensures (s == "Inactive") == !isActive
    {
      if isActive then "Active" else "Inactive"
    }
  }

  /** A source with a per-tick available `output`. */
  class Energy {
    const id: string
    const name: string
    const output: real
    const energyType: EnergyType
    var isActive: bool

    constructor (id: string, name: string, output: real, isActive: bool, energyType: EnergyType)
      ensures this.id == id && this.name == name && this.output == output
      ensures this.isActive == isActive && this.energyType == energyType
    {
      this.id := id;
      this.name := name;
      this.output := output;
      this.isActive := isActive;
      this.energyType := energyType;
    }

    /** Negates the active flag; id, name, output and type are constants. */
    method Toggle()
      modifies this
      ensures isActive == !old(isActive)
    {
      isActive := !isActive;
    }

    /** The status line of the textual rendering. */
    function StatusText(): (s: string)
      reads this
      ensures (s == "Active") == isActive
      ensures (s == "Inactive") == !isActive
    {
      if isActive then "Active" else "Inactive"
    }
  }

  /** A store of charge; `maxDischargeRate` is carried but never read by the core. */
  class Battery {
    const id: string
    const name: string
    const capacity: real
    const maxChargeRate: real
    const maxDischargeRate: real
    var currentCharge: real
    var isCharging: bool

    constructor (id: string, name: string, capacity: real, currentCharge: real,
                 maxChargeRate: real, maxDischargeRate: real, isCharging: bool)
      ensures this.id == id && this.name == name && this.capacity == capacity
      ensures this.currentCharge == currentCharge && this.maxChargeRate == maxChargeRate
      ensures this.maxDischargeRate == maxDischargeRate && this.isCharging == isCharging
    {
      this.id := id;
      this.name := name;
      this.capacity := capacity;
      this.currentCharge := currentCharge;
      this.maxChargeRate := maxChargeRate;
      this.maxDischargeRate := maxDischargeRate;
      this.isCharging := isCharging;
    }
  }

  /** A caller's view of `toggle`: applied twice, the flag is back where it was. */
  method ToggleTwice(d: Device)
    modifies d
    ensures d.isActive == old(d.isActive)
  {
    d.Toggle();
    d.Toggle();
  }
}
