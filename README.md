# Household energy grid — a Dafny model

This project models the core of a small household energy manager written in Java.
The manager keeps three registries, all keyed by id: energy sources (solar panels, the grid),
batteries and devices.

- **Charging.** Starting to charge a battery launches a supervisor. The supervisor runs one
  charging worker per active source. Each worker moves up to `min(maxChargeRate, output)` into
  the battery per tick, net of the total draw of the active devices.
- **Powering.** Switching a device on may launch a power supervisor. Its workers take each
  active device's power out of the battery per tick. A device is switched off when the
  battery cannot cover it.
- **Supervisors.** On every tick a supervisor compares the current active list with the list
  it started from. It tries to drop failed workers, starts workers for newcomers, and stops
  once every worker is done.
- **Events.** Every change is reported as an event `(category, subject, message)` to a log
  service. The service keeps one file per subject and day, `<name>_<yyyyMMdd>.log`. It mirrors
  non-SYSTEM events into the day's system file, and it deletes or archives the files dated
  before a cut-off.

The modules follow the program's structure:

- `Model` (`model.dfy`) — the `Device`, `Energy` and `Battery` objects. They are shared by
  reference, and their flags and charge are updated in place.
- `DeviceService` (`device_manager.dfy`) — the device registry as a class over a
  `map<string, Device>`. It includes the total draw of the active devices, as a ghost sum over
  the set of devices, and the loop that computes it.
- `EnergyService` (`energy_manager.dfy`):
  - the battery and source registries;
  - the start and stop guards and `shutdown`'s flag resets;
  - the two workers, as loops proved against pure runs;
  - the two supervisors, as loops proved against a pure supervisor run.
- `EnergySteps` (`energy_steps.dfy`) — the arithmetic of one charging iteration and one
  powering iteration, and of repeating them. This is where the charge-bounds, monotonicity,
  filling and switch-off properties are proved.
- `Reconciliation` (`reconciliation.dfy`) — the supervisors' set arithmetic and task
  bookkeeping, generic in what is supervised:
  - the snapshot-versus-current diff;
  - the removal filter and its abort;
  - spawning for newcomers, completion and cancellation.
- `LoggerHelper` (`logger_helper.dfy`) — message assembly and the event fan-out of each helper.
  The sink is not called; each helper returns the events in order. It also defines a
  `String.contains` that evaluates on literals, for the `"on"` classification.
- `LogService` (`log_manager.dfy`) — the log file system as maps:
  - file and archive naming;
  - the date slot of a file name and the cut-off test;
  - the writes of an event, deletion, archiving and `clearAllLogs`.
- `Dates` (`dates.dfy`) — the date handling the log service relies on:
  - the `yyyyMMdd` rendering;
  - `LocalDate.parse` with the default (smart) resolver;
  - `isBefore` and `plusDays(1)`.
- `Results` (`results.dfy`) — `Option` and `Result`. An `IllegalArgumentException` becomes
  `Err(IllegalArgument(message))`.

Doubles are modelled as `real`. A method that in Java logs through the singleton log service
returns the events it would log instead.

## Model

| member | source | states |
|---|---|---|
| Model.Device.constructor | src/main/java/de/fhdo/model/Device.java:6-13 | every field holds the value given to the builder |
| Model.Device.Toggle | src/main/java/de/fhdo/model/Device.java:21-23 | the active flag is negated; id, name, type and power are constants and cannot change |
| Model.Device.StatusText | src/main/java/de/fhdo/model/Device.java:33 | the status is "Active" exactly when the device is active and "Inactive" exactly when it is not |
| Model.Energy.constructor | src/main/java/de/fhdo/model/Energy.java:6-13 | every field holds the value given to the builder |
| Model.Energy.Toggle | src/main/java/de/fhdo/model/Energy.java:31-33 | the active flag is negated; id, name, output and type are constants |
| Model.Energy.StatusText | src/main/java/de/fhdo/model/Energy.java:28 | "Active" exactly when active, "Inactive" exactly when not |
| Model.Battery.constructor | src/main/java/de/fhdo/model/Battery.java:6-15 | every field holds the value given to the builder |
| Model.ToggleTwice | src/main/java/de/fhdo/model/Device.java:21-23 | toggling twice restores the original flag |
| Dates.DaysInMonth | src/main/java/de/fhdo/service/LogManager.java:147 | a month has 28 to 31 days; February has 29 exactly in leap years; April, June, September and November have 30 |
| Dates.IsBefore | src/main/java/de/fhdo/service/LogManager.java:148 | defined as strictly earlier by year, then month, then day; `Dates.IsBeforeStrictTotalOrder` states its order properties |
| Dates.IsBeforeStrictTotalOrder | src/main/java/de/fhdo/service/LogManager.java:148 | `isBefore` is irreflexive, asymmetric, transitive and total on distinct dates |
| Dates.NextDay | src/main/java/de/fhdo/service/LogManager.java:129 | `plusDays(1)` of a valid date is a valid date strictly after it |
| Dates.NextDayIsSuccessor | src/main/java/de/fhdo/service/LogManager.java:129 | a valid date is before tomorrow exactly when it is not after today: nothing lies in between |
| Dates.Format | src/main/java/de/fhdo/service/LogManager.java:24 | `yyyyMMdd` renders exactly eight digits |
| Dates.Parse | src/main/java/de/fhdo/service/LogManager.java:147 | a successful parse needs exactly eight digits and yields a valid date |
| Dates.ParseFormat | src/main/java/de/fhdo/service/LogManager.java:146-147 | every rendered date parses back to itself |
| Dates.ParseClampsDay | src/main/java/de/fhdo/service/LogManager.java:147 | the smart resolver reads "20230231" as 28 February 2023 |
| LogService.DirName | src/main/java/de/fhdo/service/LogManager.java:29-32 | a category's directory name is the lower-case spelling of its constant's name, at least six characters long |
| LogService.CategoryName | src/main/java/de/fhdo/service/LogManager.java:30 | the constant's own name, as `%s` renders it; `DirName` is its lower-case spelling |
| LogService.AllCategoriesListed | src/main/java/de/fhdo/service/LogManager.java:30 | `Category.values()` lists every category |
| LogService.LogFileName | src/main/java/de/fhdo/service/LogManager.java:65 | `<name>_<yyyyMMdd>.log` is 13 characters longer than the name |
| LogService.ArchiveName | src/main/java/de/fhdo/service/LogManager.java:75 | `logs_before_<yyyyMMdd>.zip` is 24 characters long |
| LogService.DateSlot | src/main/java/de/fhdo/service/LogManager.java:146 | the slot is the eight characters ending four before the end |
| LogService.IsLogFileBeforeDate | src/main/java/de/fhdo/service/LogManager.java:143-153 | true only when the name is long enough, the slot is eight digits that parse, and the parsed date is strictly before the cut-off; otherwise false, never an error |
| LogService.DateSlotOfLogFileName | src/main/java/de/fhdo/service/LogManager.java:145-146 | the slot of a name built by `logEvent` is exactly the rendered date |
| LogService.LogFileNameRoundTrip | src/main/java/de/fhdo/service/LogManager.java:143-153 | a log file is selected by a cut-off exactly when its own date is strictly before it, so a file dated on the cut-off is kept |
| LogService.TomorrowSelectsTodayAndEarlier | src/main/java/de/fhdo/service/LogManager.java:128-130 | with tomorrow as the cut-off, exactly the files dated today or earlier are selected |
| LogService.EventWrites | src/main/java/de/fhdo/service/LogManager.java:62-72 | one write to `<category>/<name>_<date>.log`; a second write to `system/system_<date>.log` prefixed `"<CATEGORY>: "` exactly when the category is not SYSTEM |
| LogService.Append | src/main/java/de/fhdo/service/LogManager.java:132-141 | the written file gains exactly the new line, its directory and file created when missing; every other file keeps its lines |
| LogService.AppendAll | src/main/java/de/fhdo/service/LogManager.java:68-71 | the writes applied in order; `AppendAllLeavesOthers` states what it leaves alone |
| LogService.AppendAllLeavesOthers | src/main/java/de/fhdo/service/LogManager.java:132-141 | a file that no write names keeps its lines |
| LogService.EventLeavesOtherFiles | src/main/java/de/fhdo/service/LogManager.java:62-72 | `logEvent` changes no file but the event's own and, for a non-SYSTEM event, the day's system file |
| LogService.EventIsRecorded | src/main/java/de/fhdo/service/LogManager.java:62-72 | after the writes, the event's file is its old lines plus the new line, and a non-SYSTEM event extends the system file by the prefixed line |
| LogService.Retained | src/main/java/de/fhdo/service/LogManager.java:91-102 | a directory keeps exactly its files not selected by the cut-off, with their contents unchanged |
| LogService.RetainedAll | src/main/java/de/fhdo/service/LogManager.java:91-102 | every category directory is filtered that way, and none appears or disappears |
| LogService.EntryName | src/main/java/de/fhdo/service/LogManager.java:157 | the directory name, a slash and the file name; `EntryNameInjective` states that entries never collide |
| LogService.LogLine | src/main/java/de/fhdo/service/LogManager.java:136 | `[<timestamp>] <message>`, the line `writeToLog` appends (the line separator is the line boundary of the file's sequence of lines) |
| LogService.EntryNameInjective | src/main/java/de/fhdo/service/LogManager.java:157 | `<category>/<file>` entry names never collide across directories or files |
| LogService.CategoryEntries | src/main/java/de/fhdo/service/LogManager.java:77-84 | the zip entries one category contributes; `CategoryEntriesSpec` states which |
| LogService.CategoryEntriesSpec | src/main/java/de/fhdo/service/LogManager.java:77-84 | a category contributes each selected file under its entry name with its lines, and nothing else |
| LogService.ArchiveEntriesStep | src/main/java/de/fhdo/service/LogManager.java:77-84 | listing one more category adds exactly its entries |
| LogService.ArchiveEntries | src/main/java/de/fhdo/service/LogManager.java:74-89 | the entries of the zip, category by category; `ArchiveHoldsSelected` and `ArchiveHoldsOnlySelected` state its contents |
| LogService.ArchiveHoldsSelected | src/main/java/de/fhdo/service/LogManager.java:74-89 | every selected file of a listed category is in the archive, under `<category>/<file>`, with its lines |
| LogService.ArchiveHoldsOnlySelected | src/main/java/de/fhdo/service/LogManager.java:74-89 | every archive entry is a selected file of a listed category |
| LogService.LogStore.constructor | src/main/java/de/fhdo/service/LogManager.java:50-60 | every category directory exists afterwards; one that existed keeps its files, a missing one is created empty; the archive directory keeps its zips |
| LogService.LogStore.LogEvent | src/main/java/de/fhdo/service/LogManager.java:62-72 | the directories become the result of the event's writes; the archive is untouched |
| LogService.LogStore.DeleteLogs | src/main/java/de/fhdo/service/LogManager.java:91-102 | every category directory loses exactly the files dated before the cut-off |
| LogService.LogStore.ArchiveCategory | src/main/java/de/fhdo/service/LogManager.java:77-84 | one category's selected files move out of it, and the moved entries are returned |
| LogService.LogStore.ArchiveLogs | src/main/java/de/fhdo/service/LogManager.java:74-89 | `logs_before_<cut-off>.zip` holds the selected files of all categories, and those files are deleted |
| LogService.LogStore.ClearAllLogs | src/main/java/de/fhdo/service/LogManager.java:128-130 | exactly the files dated today or earlier are removed, and the rest keep their contents |
| LoggerHelper.Message | src/main/java/de/fhdo/util/LoggerHelper.java:6-9 | the message text; `MessageShape` and `MessageWithInfo` state its shape |
| LoggerHelper.LogEvent | src/main/java/de/fhdo/util/LoggerHelper.java:5-11 | the event handed to the log service: the category, the subject's name and `Message` of the action, name and info |
| LoggerHelper.MessageShape | src/main/java/de/fhdo/util/LoggerHelper.java:5-11 | a message starts with `"<action>: <name>"` and is longer exactly when info is present and non-empty, the rest then being `" - <info>"` |
| LoggerHelper.MessageWithInfo | src/main/java/de/fhdo/util/LoggerHelper.java:6-9 | with non-empty info the message is `"<action>: <name> - <info>"` |
| LoggerHelper.EnergyEvent | src/main/java/de/fhdo/util/LoggerHelper.java:13-15 | an ENERGY event with subject the name and message exactly `"<action>: <name>"` |
| LoggerHelper.BatteryEvent | src/main/java/de/fhdo/util/LoggerHelper.java:17-19 | a BATTERY event with subject the name and message exactly `"<action>: <name>"` |
| LoggerHelper.DeviceEvent | src/main/java/de/fhdo/util/LoggerHelper.java:30-32 | a DEVICE event with subject the name and message exactly `"<action>: <name>"` |
| LoggerHelper.ChargingEvents | src/main/java/de/fhdo/util/LoggerHelper.java:21-28 | two events in order: BATTERY for the battery ("Charged … from <energy>"), then ENERGY for the source ("Discharged … to <battery>") |
| LoggerHelper.Contains | src/main/java/de/fhdo/util/LoggerHelper.java:35 | `String.contains`, by trying each start index; `ContainsAt` states its meaning |
| LoggerHelper.ContainsAt | src/main/java/de/fhdo/util/LoggerHelper.java:35 | the contains test holds exactly when the text occurs in the string at some index |
| LoggerHelper.MissingCharacter | src/main/java/de/fhdo/util/LoggerHelper.java:35 | a text with a character the string lacks is not contained in it |
| LoggerHelper.DevicePowerEvents | src/main/java/de/fhdo/util/LoggerHelper.java:34-43 | a DEVICE event for the device, then a BATTERY event for the battery, each naming the other; "powered"/"Charging" when the action contains "on", "shut down"/"Discharging" otherwise |
| LoggerHelper.ConsumingPowerIsPowered | src/main/java/de/fhdo/service/EnergyManager.java:280 | "Consuming power" contains "on", so it is reported as powered |
| LoggerHelper.PowerOffIsShutDown | src/main/java/de/fhdo/service/EnergyManager.java:284 | "Powered off" and "Powered off due to low battery" do not contain "on", so they are reported as shut down |
| DeviceService.ActivePower | src/main/java/de/fhdo/service/DeviceManager.java:71-76 | the summed power rating of the active devices in a set; `ActivePowerRemove`, `ActivePowerSplit`, `NoActiveNoDraw` and `ActivePowerNonNegative` state its properties |
| DeviceService.ActivePowerRemove | src/main/java/de/fhdo/service/DeviceManager.java:71-76 | the summed draw does not depend on the order of summation |
| DeviceService.NoActiveNoDraw | src/main/java/de/fhdo/service/DeviceManager.java:71-76 | with no active device the total consumption is 0 |
| DeviceService.ActivePowerNonNegative | src/main/java/de/fhdo/service/DeviceManager.java:71-76 | with no negative power rating the total is not negative |
| DeviceService.ActivePowerSplit | src/main/java/de/fhdo/service/DeviceManager.java:71-76 | the sum over a set is the sum over a subset plus the sum over the rest |
| DeviceService.DeviceManager.constructor | src/main/java/de/fhdo/service/DeviceManager.java:14 | the registry starts empty |
| DeviceService.DeviceManager.AddDevice | src/main/java/de/fhdo/service/DeviceManager.java:33-36 | inserts or overwrites by id, so a repeated id leaves one entry holding the later record; logs "Added new device"; keeps every device under its own id |
| DeviceService.DeviceManager.RemoveDevice | src/main/java/de/fhdo/service/DeviceManager.java:38-45 | deletes only that id; an unknown id changes nothing and logs nothing |
| DeviceService.DeviceManager.AllDevices | src/main/java/de/fhdo/service/DeviceManager.java:61-63 | every stored device is listed and, while every device is stored under its own id, each listed device is the one stored under its id |
| DeviceService.DeviceManager.GetDeviceById | src/main/java/de/fhdo/service/DeviceManager.java:53-59 | succeeds exactly for a stored id, returning the stored device, whose id is the one asked for while every device is stored under its own id; otherwise fails with "Device not found: <id>" |
| DeviceService.DeviceManager.ToggleDevice | src/main/java/de/fhdo/service/DeviceManager.java:47-51 | negates only that device's flag (no other object may change) and logs "Activated"/"Deactivated" from the new state; unknown id fails |
| DeviceService.DeviceManager.DevicesByState | src/main/java/de/fhdo/service/DeviceManager.java:65-69 | exactly the stored devices whose flag equals the argument |
| DeviceService.DeviceManager.StatesPartition | src/main/java/de/fhdo/service/DeviceManager.java:61-69 | active and inactive devices are disjoint and together make up all devices |
| DeviceService.DeviceManager.GetTotalConsumption | src/main/java/de/fhdo/service/DeviceManager.java:71-76 | the loop's total equals the summed draw of the registry's devices |
| DeviceService.DeviceManager.ConsumptionOfActive | src/main/java/de/fhdo/service/DeviceManager.java:71-76 | the total counts only the active devices |
| DeviceService.DeviceManager.ClearAllDevices | src/main/java/de/fhdo/service/DeviceManager.java:78-81 | the registry is empty |
| DeviceService.ToggleDeviceTwice | src/main/java/de/fhdo/service/DeviceManager.java:47-51 | toggling the same id twice restores its flag |
| EnergySteps.ChargeStep | src/main/java/de/fhdo/service/EnergyManager.java:180-202 | exits exactly when the deficit and the draw are both not positive; a charging step adds an amount no larger than the deficit; a draining step has a non-positive net and leaves a non-negative charge |
| EnergySteps.ChargeStepInBounds | src/main/java/de/fhdo/service/EnergyManager.java:181-201 | from `0 <= charge <= capacity` the step keeps the charge within `[0, capacity]`, whatever the rates, output and draw |
| EnergySteps.ChargeStepBranches | src/main/java/de/fhdo/service/EnergyManager.java:191-201 | positive net adds `min(net, deficit)`, otherwise the charge becomes `max(0, charge + net)`, with `net = min(maxChargeRate, output) - draw` |
| EnergySteps.FullBatterySpins | src/main/java/de/fhdo/service/EnergyManager.java:193-197 | a full battery with some draw below the charge power adds nothing and does not exit, so the worker repeats without pausing |
| EnergySteps.RunCharge | src/main/java/de/fhdo/service/EnergyManager.java:177-208 | a run logs at most one amount per iteration and exits only when the battery is full and nothing is drawn |
| EnergySteps.RunChargeInBounds | src/main/java/de/fhdo/service/EnergyManager.java:177-208 | any number of iterations keeps the charge within `[0, capacity]` |
| EnergySteps.RunChargeMonotone | src/main/java/de/fhdo/service/EnergyManager.java:187-197 | with zero draw the charge never falls |
| EnergySteps.RunChargeFills | src/main/java/de/fhdo/service/EnergyManager.java:187-197 | with zero draw and positive charge power `p`, `n + 1` iterations with `n * p` covering the deficit fill the battery and the worker exits |
| EnergySteps.PowerStep | src/main/java/de/fhdo/service/EnergyManager.java:276-287 | consumes exactly when the charge covers the power, and then the charge drops by exactly the power |
| EnergySteps.PowerStepInBounds | src/main/java/de/fhdo/service/EnergyManager.java:276-287 | with non-negative power, a consuming step keeps the charge within `[0, capacity]` |
| EnergySteps.RunPower | src/main/java/de/fhdo/service/EnergyManager.java:273-293 | at most one consumption per iteration; a switch-off happens only when the charge is below the power |
| EnergySteps.RunPowerDrains | src/main/java/de/fhdo/service/EnergyManager.java:276-280 | the final charge is the start minus the power times the number of consuming iterations |
| EnergySteps.RunPowerSwitchesOff | src/main/java/de/fhdo/service/EnergyManager.java:281-285 | a device with positive power is switched off within `n` iterations once `n * power` exceeds the charge |
| EnergySteps.RunPowerInBounds | src/main/java/de/fhdo/service/EnergyManager.java:273-293 | with non-negative power the charge stays within `[0, capacity]` over a run |
| Reconciliation.Added | src/main/java/de/fhdo/service/EnergyManager.java:150-154 | the added items are exactly the current items absent from the snapshot, each once as in the hash set; none are added exactly when every current item is in the snapshot |
| Reconciliation.Removed | src/main/java/de/fhdo/service/EnergyManager.java:150-153 | the removed items are snapshot items that are not current |
| Reconciliation.RemovedExactly | src/main/java/de/fhdo/service/EnergyManager.java:150-153 | a snapshot item is removed exactly when it is no longer current |
| Reconciliation.Spawn | src/main/java/de/fhdo/service/EnergyManager.java:142-144 | one running task per item, in order |
| Reconciliation.Tick | src/main/java/de/fhdo/service/EnergyManager.java:148-165 | the tick aborts exactly when something was removed and some task ended exceptionally; otherwise a running task is appended per added item, and the supervisor finishes exactly when all tasks are done |
| Reconciliation.NewcomerRespawnedEveryTick | src/main/java/de/fhdo/service/EnergyManager.java:148-160 | because the snapshot is never refreshed, a newcomer gets one more running task on every tick that does not abort, and that tick cannot finish |
| Reconciliation.RemovalKeepsFuturesOfRemovedItems | src/main/java/de/fhdo/service/EnergyManager.java:156-158 | when no task failed, the tasks of removed items all stay |
| Reconciliation.CancelAll | src/main/java/de/fhdo/service/EnergyManager.java:172 | after cancelling, every task is done; tasks that were already done keep their state |
| Reconciliation.Settle | src/main/java/de/fhdo/service/EnergyManager.java:142-143 | only running tasks change state; done tasks never do |
| Reconciliation.Supervise | src/main/java/de/fhdo/service/EnergyManager.java:140-175 | every way out leaves the loop flag cleared and every task done; stopping by the flag happens only in the guarded (charging) supervisor |
| Reconciliation.CancelAllOfDone | src/main/java/de/fhdo/service/EnergyManager.java:162-173 | a supervisor that finished cancels nothing |
| Reconciliation.NoNewcomerFinishes | src/main/java/de/fhdo/service/EnergyManager.java:162-165 | with no newcomer and every task done, a tick that does not abort finishes |
| Reconciliation.NewcomerPreventsFinish | src/main/java/de/fhdo/service/EnergyManager.java:140-175 | with each tick one atomic step (see "## Left out"), a source that stays active but is not in the snapshot keeps the supervisor from ever finishing |
| EnergyService.ChargingLog | src/main/java/de/fhdo/service/EnergyManager.java:196-201 | pair `i` of the log is the charging pair for the `i`-th reported amount |
| EnergyService.PowerLog | src/main/java/de/fhdo/service/EnergyManager.java:280-284 | the events of a power run; `PowerLogPairs` states their order |
| EnergyService.PowerLogPairs | src/main/java/de/fhdo/service/EnergyManager.java:280-284 | the power log is one "Consuming power" pair per consuming iteration, then the low-battery pair if the device was switched off |
| EnergyService.ToSeq | src/main/java/de/fhdo/service/EnergyManager.java:141-144 | the list a stream over the active set yields holds each element once |
| EnergyService.EnergyManager.constructor | src/main/java/de/fhdo/service/EnergyManager.java:18-22 | empty registries, sharing the given device registry |
| EnergyService.EnergyManager.AddEnergy | src/main/java/de/fhdo/service/EnergyManager.java:41-44 | inserts or overwrites the source by id, leaves batteries alone, and logs "Added new energy" |
| EnergyService.EnergyManager.AddBattery | src/main/java/de/fhdo/service/EnergyManager.java:46-49 | inserts or overwrites the battery by id, leaves sources alone, and logs "Added new battery" |
| EnergyService.EnergyManager.AllBatteries | src/main/java/de/fhdo/service/EnergyManager.java:71-73 | every stored battery is listed and, while ids are kept, each listed battery is the one stored under its id |
| EnergyService.EnergyManager.AllEnergies | src/main/java/de/fhdo/service/EnergyManager.java:75-77 | every stored source is listed and, while ids are kept, each listed source is the one stored under its id |
| EnergyService.EnergyManager.GetBatteryById | src/main/java/de/fhdo/service/EnergyManager.java:51-59 | succeeds exactly for a stored id, returning the stored battery, whose id is the one asked for while ids are kept; otherwise fails with "Battery not found: <id>" |
| EnergyService.EnergyManager.GetEnergyById | src/main/java/de/fhdo/service/EnergyManager.java:61-69 | succeeds exactly for a stored id, returning the stored source, whose id is the one asked for while ids are kept; otherwise fails with "Energy not found: <id>" |
| EnergyService.EnergyManager.LookupAfterAdd | src/main/java/de/fhdo/service/EnergyManager.java:46-59 | after an add, the lookup returns the battery just added |
| EnergyService.EnergyManager.RemoveBatteryById | src/main/java/de/fhdo/service/EnergyManager.java:79-84 | deletes only that key; an absent id changes nothing and logs nothing |
| EnergyService.EnergyManager.RemoveEnergyById | src/main/java/de/fhdo/service/EnergyManager.java:86-91 | deletes only that key; an absent id changes nothing and logs nothing |
| EnergyService.EnergyManager.BatteriesByState | src/main/java/de/fhdo/service/EnergyManager.java:93-97 | exactly the stored batteries whose charging flag equals the argument |
| EnergyService.EnergyManager.EnergiesByState | src/main/java/de/fhdo/service/EnergyManager.java:99-103 | exactly the stored sources whose active flag equals the argument |
| EnergyService.EnergyManager.StatesPartition | src/main/java/de/fhdo/service/EnergyManager.java:93-103 | the two filters split each registry into disjoint halves |
| EnergyService.EnergyManager.ClearAllEnergies | src/main/java/de/fhdo/service/EnergyManager.java:105-108 | the source registry is empty and the batteries are untouched |
| EnergyService.EnergyManager.ClearAllBatteries | src/main/java/de/fhdo/service/EnergyManager.java:110-113 | the battery registry is empty and the sources are untouched |
| EnergyService.EnergyManager.ToggleEnergyById | src/main/java/de/fhdo/service/EnergyManager.java:115-119 | negates only that source's flag and logs "Activated energy"/"Deactivated energy" from the new state; unknown id fails |
| EnergyService.EnergyManager.StartCharging | src/main/java/de/fhdo/service/EnergyManager.java:121-138 | unknown battery fails; already charging or no active source leaves the flag as it was; otherwise the flag is set and charging starts; the charge itself is never changed |
| EnergyService.EnergyManager.StopCharging | src/main/java/de/fhdo/service/EnergyManager.java:210-215 | clears only that battery's flag, leaves its charge, and logs "Stopped charging" |
| EnergyService.EnergyManager.StartPower | src/main/java/de/fhdo/service/EnergyManager.java:217-234 | the device is looked up before the battery, and either failing leaves the device alone; otherwise the device ends up on, with a supervisor started only when no device was active before |
| EnergyService.EnergyManager.StopPowerDevice | src/main/java/de/fhdo/service/EnergyManager.java:295-301 | after both lookups succeed, the device is off and the "Powered off" shut-down pair is logged |
| EnergyService.EnergyManager.Shutdown | src/main/java/de/fhdo/service/EnergyManager.java:303-306 | every source is inactive, no battery is charging and every device is off; every battery keeps its charge |
| EnergyService.EnergyManager.ChargeIteration | src/main/java/de/fhdo/service/EnergyManager.java:180-202 | one synchronized block: the charge step applied with the devices' total draw, the flag untouched |
| EnergyService.EnergyManager.ChargeFromEnergy | src/main/java/de/fhdo/service/EnergyManager.java:177-208 | the final charge, the exit and the logged events are those of the pure charging run from the starting charge; a battery not charging is left alone |
| EnergyService.EnergyManager.PowerFromBattery | src/main/java/de/fhdo/service/EnergyManager.java:273-293 | the final charge, the device flag and the logged pairs are those of the pure power run; a device that is off is left alone |
| EnergyService.EnergyManager.ManageChargingTasks | src/main/java/de/fhdo/service/EnergyManager.java:140-175 | starts one task per active source in the snapshot and follows the pure supervisor run; the battery's charging flag is cleared on every way out, and the charge is untouched |
| EnergyService.EnergyManager.ManageDevicePowerTask | src/main/java/de/fhdo/service/EnergyManager.java:236-271 | the same for the active devices, unguarded by a flag; every way out switches the starting device off |
| EnergyService.PowerLoop | src/main/java/de/fhdo/service/EnergyManager.java:275-289 | the loop's state and events are those of the pure power run |
| EnergyService.PowerIteration | src/main/java/de/fhdo/service/EnergyManager.java:276-287 | one synchronized block: the power step applied to the battery or the device switched off |
| EnergyService.SuperviseCharging | src/main/java/de/fhdo/service/EnergyManager.java:146-174 | the loop's exit, tasks and flag are those of the pure supervisor run |
| EnergyService.SuperviseDevicePower | src/main/java/de/fhdo/service/EnergyManager.java:242-270 | the loop's exit and tasks are those of the pure supervisor run, and the device is off on every way out |
| EnergyService.ToggleEnergyTwice | src/main/java/de/fhdo/service/EnergyManager.java:115-119 | toggling the same source twice restores its flag |

## Left out

- Concurrency. The executor, futures, `Thread.sleep`, interruption, `synchronized`, `awaitTermination`/`shutdownNow` and the double-checked-locking singletons are not modelled. Each worker iteration is one atomic step. What other threads do between supervisor ticks is a parameter: the sequence of observations.
- EnergyService.EnergyManager.ChargeFromEnergy: runs at most `fuel` iterations, which stands for however many the scheduler grants. The devices' total draw is the same in every iteration, because no other thread acts during the run.
- EnergyService.EnergyManager.PowerFromBattery: runs at most `fuel` iterations. Both event pairs are built once before the loop, which gives the same events because they are pure values.
- EnergyService.EnergyManager.ManageChargingTasks: requires the battery to be charging, because its only caller (`startCharging`) sets the flag before launching it. The flag changes that other threads make (`stopCharging`, `shutdown`) come in through the observations.
- EnergyService.EnergyManager.ManageChargingTasks: the initial tasks follow the order of a list drawn from the set of active sources, not `HashSet` iteration order. Newcomers get tasks in the order of the current list.
- EnergyService.EnergyManager.ManageDevicePowerTask: the same ordering simplification as the charging supervisor.
- The supervisors compare sources and devices by reference. Lombok's generated field-by-field equality is not modelled, so two distinct objects with equal fields count as different here.
- The abort of a supervisor tick is modelled as the effect of removing from the list the stream is iterating over: the exception leaves through `finally`. The exception itself is not modelled.
- `%.2f` rendering of amounts is the `render` parameter of `ChargeFromEnergy`. The `toString` layouts are left out except for the status line.
- Doubles are `real`s: no rounding, infinities or NaN.
- Dates.Format: only years 1 to 9999. `LocalDate`'s wider year range and its sign-prefixed rendering of years above 9999 are not modelled.
- `LocalDateTime.now()` and the timestamp pattern: the date and the rendered timestamp are parameters of `LogEvent`, and today is a parameter of `ClearAllLogs`.
- LogService.LogStore.LogEvent: a subject name is one flat file name. A name containing `/` would make the source write into a subdirectory of the category directory, which `deleteLogs` and `archiveLogs` never list; the model files it directly in the category directory instead.
- LogService.LogStore.constructor: a directory that cannot be created (the logged `IOException`) is not modelled; every category directory exists afterwards.
- LogService.DateSlot: file names are sequences of Unicode characters, not of UTF-16 code units as `length()` and `substring` count them. For a name with a character outside the Basic Multilingual Plane among its last twelve units, the slot differs from the source's, and the file may be selected where the source keeps it. Names that `logEvent` writes end in thirteen ASCII characters, so their slot is the same.
- File I/O. Directory creation, writers, zip streams and I/O errors are not modelled. Directories are maps from file names to lines, and an archive is a map from entry names to lines.
- `searchLogs`, `readLogFile`, `getAllLogFiles`, `archiveLogFile`'s copy and `deleteLogFile`'s error logging are not modelled, because they are file-system access only.
- The `log.info`/`log.warn` diagnostics of the managers are not modelled. They go to the logging framework, not to the event log.
- SystemMonitor, the Swing and console user interfaces, `App` and HouseConfig are not part of this model.
- `Battery`'s text rendering is not part of this model.
