/**
 * Assembly of event messages. The sink is not called: each helper returns the
 * event records, in order, that it would hand to the log service.
 */
module LoggerHelper {
  import opened Results
  import opened LogService

  /** What the sink receives: a category, the subject's name and the message. */
  datatype Event = Event(category: Category, subject: string, message: string)

  /** `"<action>: <name>"`, followed by `" - <info>"` when the info is present and not empty. */
  function Message(action: string, name: string, info: Option<string>): string {
    var head := action + ": " + name;
    if info.Some? && info.value != "" then head + " - " + info.value else head
  }

  /**
   * A message starts with `"<action>: <name>"`; it is longer exactly when the info
   * is present and not empty, and then the rest is `" - <info>"`.
   */
  lemma MessageShape(action: string, name: string, info: Option<string>)
    ensures var m, head := Message(action, name, info), action + ": " + name;
            && |head| <= |m| && m[..|head|] == head
            && (|m| > |head| <==> info.Some? && info.value != "")
            && (info.Some? && info.value != "" ==> m[|head|..] == " - " + info.value)
  {
  }

  /** With a non-empty info the message is the head, `" - "` and the info. */
  lemma MessageWithInfo(action: string, name: string, info: string)
    requires info != ""
    ensures Message(action, name, Some(info)) == action + ": " + name + " - " + info
  {
  }

  /** `logEvent`: the event recorded under `category` for subject `name`. */
  function LogEvent(category: Category, action: string, name: string, info: Option<string>): Event {
    Event(category, name, Message(action, name, info))
  }

  function EnergyEvent(action: string, energyName: string): (e: Event)
    ensures e == Event(ENERGY, energyName, action + ": " + energyName)
  {
    LogEvent(ENERGY, action, energyName, None)
  }

  function BatteryEvent(action: string, batteryName: string): (e: Event)
    ensures e == Event(BATTERY, batteryName, action + ": " + batteryName)
  {
    LogEvent(BATTERY, action, batteryName, None)
  }

  function DeviceEvent(action: string, deviceName: string): (e: Event)
    ensures e == Event(DEVICE, deviceName, action + ": " + deviceName)
  {
    LogEvent(DEVICE, action, deviceName, None)
  }

  /**
   * `logChargingEvent`: a BATTERY event for the battery, then an ENERGY event for
   * the source, each naming the other party. `amountText` is the amount as
   * `%.2f` renders it.
   */
  function ChargingEvents(batteryName: string, energyName: string, amountText: string): (es: seq<Event>)
    ensures |es| == 2
    ensures es[0] == Event(BATTERY, batteryName,
                           "Charging: " + batteryName + " - " + ("Charged " + amountText + " from " + energyName))
    ensures es[1] == Event(ENERGY, energyName,
                           "Discharging: " + energyName + " - " + ("Discharged " + amountText + " to " + batteryName))
  {
    var chargeInfo := "Charged " + amountText + " from " + energyName;
    var dischargeInfo := "Discharged " + amountText + " to " + batteryName;
    MessageWithInfo("Charging", batteryName, chargeInfo);
    MessageWithInfo("Discharging", energyName, dischargeInfo);
    [LogEvent(BATTERY, "Charging", batteryName, Some(chargeInfo)),
     LogEvent(ENERGY, "Discharging", energyName, Some(dischargeInfo))]
  }

  /** The characters of `t` from index `j` on appear in `s` from index `i + j` on. */
  predicate MatchFrom(s: string, t: string, i: nat, j: nat)
    decreases |t| - j
  {
    if j >= |t| then i + j <= |s|
    else i + j < |s| && s[i + j] == t[j] && MatchFrom(s, t, i, j + 1)
  }

  /** `t` occurs in `s` at some index of at least `i`. */
  predicate ContainsFrom(s: string, t: string, i: nat)
    decreases |s| - i
  {
    i <= |s| && (MatchFrom(s, t, i, 0) || ContainsFrom(s, t, i + 1))
  }

  /** `String.contains`, scanning the start indices left to right. */
  predicate Contains(s: string, t: string) {
    ContainsFrom(s, t, 0)
  }

  /** `t` occurs in `s` at index `i`, read as a slice. */
  predicate OccursAt(s: string, t: string, i: nat) {
    i + |t| <= |s| && s[i..i + |t|] == t
  }

  lemma {:induction false} MatchFromIsSlice(s: string, t: string, i: nat, j: nat)
    requires j <= |t|
    ensures MatchFrom(s, t, i, j) <==> i + |t| <= |s| && s[i + j..i + |t|] == t[j..]
    decreases |t| - j
  {
    if j < |t| {
      MatchFromIsSlice(s, t, i, j + 1);
      if i + |t| <= |s| {
        assert s[i + j..i + |t|] == [s[i + j]] + s[i + j + 1..i + |t|];
        assert t[j..] == [t[j]] + t[j + 1..];
        assert (s[i + j..i + |t|] == t[j..]) <==> (s[i + j] == t[j] && s[i + j + 1..i + |t|] == t[j + 1..]);
      }
    }
  }

  lemma {:induction false} ContainsFromAt(s: string, t: string, k: nat)
    ensures ContainsFrom(s, t, k) <==> exists i: nat :: k <= i && OccursAt(s, t, i)
    decreases |s| - k
  {
    MatchFromIsSlice(s, t, k, 0);
    assert t[0..] == t;
    if k <= |s| {
      ContainsFromAt(s, t, k + 1);
      if ContainsFrom(s, t, k) {
        if MatchFrom(s, t, k, 0) {
          assert OccursAt(s, t, k);
        } else {
          var i: nat :| k + 1 <= i && OccursAt(s, t, i);
          assert k <= i;
        }
      }
      if exists i: nat :: k <= i && OccursAt(s, t, i) {
        var i: nat :| k <= i && OccursAt(s, t, i);
        if i == k {
          assert MatchFrom(s, t, k, 0);
        } else {
          assert k + 1 <= i && OccursAt(s, t, i);
        }
      }
    }
  }

  /** `Contains` agrees with the slice reading of an occurrence, both ways. */
  lemma ContainsAt(s: string, t: string)
    ensures Contains(s, t) <==> exists i: nat :: OccursAt(s, t, i)
  {
    ContainsFromAt(s, t, 0);
  }

  /** A text holding a character that `s` lacks does not occur in `s`. */
  lemma MissingCharacter(s: string, t: string, c: char)
    requires c in t && c !in s
    ensures !Contains(s, t)
  {
    ContainsAt(s, t);
  }

  /**
   * `logDevicePowerEvent`: a DEVICE event for the device, then a BATTERY event
   * for the battery, classified by whether the action contains "on".
   */
  function DevicePowerEvents(action: string, deviceName: string, batteryName: string): (es: seq<Event>)
    ensures |es| == 2
    ensures es[0].category == DEVICE && es[0].subject == deviceName
    ensures es[1].category == BATTERY && es[1].subject == batteryName
    ensures Contains(action, "on") ==>
              es[0].message == action + ": " + deviceName + " - " + ("Is now powered by battery " + batteryName) &&
              es[1].message == "Charging: " + batteryName + " - " + ("Is now powered device " + deviceName)
    ensures !Contains(action, "on") ==>
              es[0].message == action + ": " + deviceName + " - " + ("Is now shut down by battery " + batteryName) &&
              es[1].message == "Discharging: " + batteryName + " - " + ("Is now shut down device " + deviceName)
  {
    // "powered"/"Charging" when the action contains "on", else "shut down"/"Discharging"
    var on := Contains(action, "on");
    var deviceInfo := if on then "Is now powered by battery " + batteryName
                      else "Is now shut down by battery " + batteryName;
    var batteryInfo := if on then "Is now powered device " + deviceName
                       else "Is now shut down device " + deviceName;
    MessageWithInfo(action, deviceName, deviceInfo);
    MessageWithInfo(if on then "Charging" else "Discharging", batteryName, batteryInfo);
    [LogEvent(DEVICE, action, deviceName, Some(deviceInfo)),
     LogEvent(BATTERY, if on then "Charging" else "Discharging", batteryName, Some(batteryInfo))]
  }

  /** The worker's "Consuming power" contains "on", so it is reported as powered. */
  lemma ConsumingPowerIsPowered()
    ensures Contains("Consuming power", "on")
  {
    assert OccursAt("Consuming power", "on", 1);
    ContainsAt("Consuming power", "on");
  }

  /** The two switch-off actions hold no 'n', so they are reported as shut down. */
  lemma PowerOffIsShutDown()
    ensures !Contains("Powered off", "on")
    ensures !Contains("Powered off due to low battery", "on")
  {
    MissingCharacter("Powered off", "on", 'n');
    MissingCharacter("Powered off due to low battery", "on", 'n');
  }
}
