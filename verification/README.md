# WatchWinder controller — Dafny model

This project models the controller of an ESP8266 watch winder: one stepper drives up to three
mounted wristwatches, each with a name, a number of turns per day and a turning direction. The
controller class `WatchWinder` keeps a vector of movement suppliers (the stepper with its rpm and
its ordered list of mounted watches). It exposes the three watch slots through getters and
setters, a save handler and a reset handler. It gates movement on an allowed hour range, and it
fills and flushes a fixed-size buffer of outgoing web content. It also renders the three slots
as a JSON document.

Modules:

- `Watches` (`watches.dfy`) holds the data model and the slot store as values. It has the
  getters (stored value or default) and the setters (one attribute of one slot, or nothing). It
  also has the save request, the reset, and the supplier `SetupWatchMovementSuppliers` builds.
- `TimeOfDay` (`time_of_day.dfy`) holds the hour arithmetic of `ConvertEpochHourToUnixTimestamp`,
  the hour-of-day of an instant, and the inclusive hour-range gate.
- `Decimal` (`decimal.dfy`) holds the decimal rendering of `String(int)` and its parser.
- `WatchesJson` (`watches_json.dfy`) holds the document `GetWatchesJSON` writes, a reader for
  that fixed shape, and the round trip between them.
- `Winder` (`watch_winder.dfy`) holds the class `WatchWinder`. Its fields are the supplier
  vector, the settings values, the allowed-movement instants, the buffer array and its fill
  counter. Its methods update them in place and are specified by the functions above.
- `Options` (`options.dfy`) holds the Option datatype.

Assumptions the model rests on:

- Instants are seconds from the reference midnight that `ConvertEpochHourToUnixTimestamp`
  builds on. `mktime` normalises `tm_hour` by adding hours, and `hour(t)` is `(t / 3600) mod 24`.
  Under this assumption the time-zone shift never changes the gate. The source multiplies the
  shift by 60 * 60 and subtracts it from a count of hours. That removes a multiple of
  3600 = 150 * 24 hours, so the hour of day is unchanged (`TimeOfDay.ShiftIsWholeDays`).
- The `TurningDirection` enum is visible through `WatchWinder.h`, which is not part of this model.
  `BOTHDIRECTIONS` is taken as code 2 (enum order CLOCKWISE, COUNTERCLOCKWISE, BOTHDIRECTIONS).
  No property depends on the value.
- `BUFFER_SIZE` is the length of the buffer array. The constructor takes it as a positive
  parameter.
- A default-constructed `WatchMovementSupplier` has no requirements and rpm 0
  (`Watches.UNSET_RPM`). Its class is not part of this model. `buffer_counter_` starts at 0.
- `WatchMovementSupplier::GetAllRequirements()` returns a reference to the supplier's own
  requirement vector, not a copy. Set-up appends the three requirements through it, and every
  setter writes through it. Were it a copy, set-up would add a supplier with no requirements and
  every setter would change nothing.
- A requirement's `SetName`, `SetRevolutionsPerDay` and `SetTurningDirection` store exactly the
  value that `GetName`, `GetRevolutionsPerDay` and `GetTurningDirection` then return. The
  requirement class is not part of this model.

The model follows the code as written:

- The setters accept any integer as turns per day; nothing rejects non-positive values.
- Direction codes from a save request are cast without validation, so a direction is an `int`.
- `InAllowedTimeFrameOfDay` reads the clock twice, once for each comparison. The model takes the
  two readings as two instants. When they straddle midnight the first is in hour 23 and the
  second in hour 0, so the gate is open for that tick whatever the window
  (`TimeOfDay.MidnightRolloverOpensGate`).
- `Step` contains no reconciliation or alternation of directions. Its loop over the suppliers
  has an empty body.
- The time-zone shift enters in seconds, not hours, as described above.

## Model

| member | source | states |
|---|---|---|
| `Watches.GetWatchName` | WatchWinder.cpp:526-615 | the name of requirement 0/1/2 of supplier 0 when that slot exists, else "First/Second/Third Watch" |
| `Watches.GetWatchTurnsPerDay` | WatchWinder.cpp:539-628 | the stored turns per day of the slot when it exists, else 720 |
| `Watches.GetWatchTurnDirection` | WatchWinder.cpp:552-641 | the stored direction code of the slot when it exists, else BOTHDIRECTIONS |
| `Watches.WithWatchName` | WatchWinder.cpp:643-725 | only the name of the addressed requirement changes, and nothing changes when the slot is missing; supplier count, other suppliers, rpm, requirement count, every turning-like-stepper flag and every other requirement stay; the slot then reports the new name, and every other getter reports what it did |
| `Watches.WithWatchTurnsPerDay` | WatchWinder.cpp:655-737 | the same for turns per day; any integer is stored |
| `Watches.WithWatchTurnDirection` | WatchWinder.cpp:667-749 | the same for the direction code; any code is stored |
| `Watches.ApplySlotFields` | WatchWinder.cpp:223-234 | a slot's present fields are written and its absent fields keep their value; a missing slot keeps its defaults; no other slot and nothing outside the slot changes |
| `Watches.SaveAppliesPresentFields` | WatchWinder.cpp:221-260 | after a save, each existing slot reports the request's value for each present field and its old value for each absent one; missing slots keep reporting defaults; the shape (counts, flags, rpm, other suppliers) is unchanged |
| `Watches.ResetRestoresDefaults` | WatchWinder.cpp:262-276 | after a reset all nine getters report "First/Second/Third Watch", 720 and BOTHDIRECTIONS, whatever the slot count; flags and requirement count are untouched |
| `Watches.ReferenceSupplier` | WatchWinder.cpp:68-102 | the set-up supplier has rpm (55 / 23) * 19 = 38 in integer arithmetic and three requirements in the order First/Second/Third Watch, each BOTHDIRECTIONS with 720 turns per day, with turning-like-stepper flags false, true, false |
| `Watches.SetupOnEmptyStore` | WatchWinder.cpp:68-102 | setting up an empty store creates all three slots, and they report exactly what a reset reports |
| `Watches.AppendedSupplierUnseen` | WatchWinder.cpp:485-488 | appending a supplier to a non-empty vector changes no slot, because only supplier 0 is addressed |
| `TimeOfDay.HourOfDay` | WatchWinder.cpp:469-470 | the hour of day of an instant lies in 0..23 |
| `TimeOfDay.ConvertEpochHourToUnixTimestamp` | WatchWinder.cpp:490-501 | the instant is a whole number of hours after the reference midnight, and its hour of day is `hour mod 24` whatever the time-zone shift (under the mktime/hour assumption) |
| `TimeOfDay.WholeHours` | WatchWinder.cpp:497-500 | with `tm_min` and `tm_sec` set to 0, the instant `mktime` makes (under the stated assumption) from `h` hours lies on an hour boundary and maps back to exactly `h` hours |
| `TimeOfDay.ShiftIsWholeDays` | WatchWinder.cpp:496 | subtracting the shift times 60 * 60 from the hour field moves the instant by whole days |
| `TimeOfDay.InAllowedTimeFrameOfDay` | WatchWinder.cpp:467-478 | the first reading's hour is compared with the earliest hour and the second reading's with the latest; with both readings in one hour the check includes both ends of the range, and a range whose latest hour precedes its earliest hour is never open as long as the first reading's hour does not follow the second's |
| `TimeOfDay.GateIgnoresShift` | WatchWinder.cpp:467-507 | for configured hours in 0..23, the gate over the converted instants is `earliest <= hour(first reading)` and `hour(second reading) <= latest` |
| `TimeOfDay.MidnightRolloverOpensGate` | WatchWinder.cpp:469-470 | readings at the last second before and the first second of a midnight have hours 23 and 0, so the gate is open for every window in 0..23, while a single reading at either instant keeps a window that reaches neither hour 23 nor hour 0 closed |
| `Decimal.NatToDecimal` | WatchWinder.cpp:514 | the rendering of a natural number is a non-empty string of digits without a leading zero |
| `Decimal.IntToDecimal` | WatchWinder.cpp:514 | the rendering of an integer is non-empty and holds only digits and '-' |
| `Decimal.IntRoundTrip` | WatchWinder.cpp:514 | parsing the rendering of any integer gives that integer back |
| `WatchesJson.SlotRoundTrip` | WatchWinder.cpp:513-515 | one slot's three members read back as the slot's name, turns and direction, followed by exactly what came after them |
| `WatchesJson.JsonRoundTrip` | WatchWinder.cpp:509-524 | the document is `{`, then the first/second/third name, turnsperday and turndirection members in that order, then `}`; with the fixed-shape reader `ParseWatchesJson`, which decodes no escapes, it reads back as the three slots it was written from exactly when no name holds a double quote, because names are not escaped; a general JSON reader also misreads names holding a backslash or a control character |
| `WatchesJson.ResetDocument` | WatchWinder.cpp:262-276 | after a reset the document reads back as the three default slots |
| `Winder.WatchWinder.constructor` | WatchWinder.cpp:9-22 | no suppliers, an empty buffer of `BUFFER_SIZE` characters, nothing sent, and the allowed-movement instants derived from the initial settings |
| `Winder.WatchWinder.SetupWatchMovementSuppliers` | WatchWinder.cpp:68-102 | appends exactly one supplier, the reference supplier |
| `Winder.WatchWinder.AddWatchMovementSupplier` | WatchWinder.cpp:485-488 | appends exactly one default-constructed supplier |
| `Winder.WatchWinder.SetWatchName` | WatchWinder.cpp:643-725 | the supplier vector becomes `WithWatchName` of the old one; no other field changes |
| `Winder.WatchWinder.SetWatchTurnsPerDay` | WatchWinder.cpp:655-737 | the supplier vector becomes `WithWatchTurnsPerDay` of the old one; no other field changes |
| `Winder.WatchWinder.SetWatchTurnDirection` | WatchWinder.cpp:667-749 | the supplier vector becomes `WithWatchTurnDirection` of the old one; no other field changes |
| `Winder.WatchWinder.SaveSlotFields` | WatchWinder.cpp:223-234 | the three guarded setter calls of one slot turn the vector into `ApplySlotFields` of the old one |
| `Winder.WatchWinder.HandleWatchesSaveJSON` | WatchWinder.cpp:221-260 | the nine guarded setter calls turn the vector into `ApplySave` of the old one |
| `Winder.WatchWinder.HandleWatchesResetJSON` | WatchWinder.cpp:262-276 | the nine setter calls leave every slot reporting its default and keep the vector's shape |
| `Winder.WatchWinder.ApplyTimesettings` | WatchWinder.cpp:503-507 | both allowed-movement instants are those derived from the current settings |
| `Winder.WatchWinder.InAllowedTimeFrameOfDay` | WatchWinder.cpp:467-478 | once the settings are applied and the configured hours are in 0..23, the gate holds exactly when the first reading's hour is at least the earliest hour and the second reading's hour at most the latest, whatever the time-zone shift |
| `Winder.WatchWinder.Step` | WatchWinder.cpp:455-465 | a tick reports the gate's answer for its two clock readings and changes no state: no supplier, requirement, setting or buffer |
| `Winder.WatchWinder.HandleTimesettingsSaveJSON` | WatchWinder.cpp:186-203 | each setting present in the request is written and each absent one kept, then both allowed-movement instants are derived from the new settings |
| `Winder.WatchWinder.HandleTimesettingsResetJSON` | WatchWinder.cpp:205-210 | the settings take their reset values, then both allowed-movement instants are derived from them |
| `Winder.WatchWinder.SendBuffer` | WatchWinder.cpp:117-124 | the pending characters are sent and the buffer is emptied; with nothing pending nothing is sent, so a second call sends nothing; the buffer invariant is kept |
| `Winder.WatchWinder.SendToBuffer` | WatchWinder.cpp:126-136 | the string is appended behind the pending characters, after first flushing them when the total would exceed `BUFFER_SIZE`; the fill counter never exceeds `BUFFER_SIZE`, and what was sent followed by what is pending always equals everything appended, in order |
| `Winder.WatchWinder.GetWatchesJSON` | WatchWinder.cpp:509-524 | with the fixed-shape reader `ParseWatchesJson`, the document of the nine getters reads back as exactly what they report precisely when no reported name holds a double quote; a general JSON reader also misreads names holding a backslash or a control character |

## Left out

- Wi-Fi provisioning, configuration-file reading and writing, and JSON-library parsing
  (`ReadConfig`, `SetupWifiManager`, `SaveConfigCallback`) use the network, the file system and
  foreign libraries.
- NTP client setup and its synchronisation callback (`SetupNTPClient`) are network code and
  asynchronous events.
- HTTP route registration and the file and page handlers (`Setup`, `SendFile`, `SendHeader`,
  `HandleRoot`, `Handle*HTML`, `Handle*JS`, `HandleStyleCSS`, `HandleTimesettingsJSON`,
  `HandleWatchesJSON`, `HandleRestartESPJSON`) are web-server and hardware calls. Of the web
  server only what `sendContent_P` sends from the buffer is kept, as the ghost sequence `sent`.
- The `"true"` reply that the save and reset handlers send, and `web_server_.handleClient()` in
  `Step`, are web-server calls.
- Winder.WatchWinder.Step: "changes no state" holds for the modelled part of a tick only.
  `web_server_.handleClient()` runs the registered handlers, among them `HandleWatchesSaveJSON`,
  `HandleWatchesResetJSON` and `HandleWatchesJSON`, so a real tick can change the suppliers and
  the buffer; those handlers are modelled as separate methods.
- The settings object's `Load`, `Save`, `Reset` and `Info` persist to flash; its class is not
  part of this model. Its three getters are plain fields, set by the constructor and by the two
  time-settings handlers. The values `Reset` restores are parameters of
  `HandleTimesettingsResetJSON`.
- Both save handlers convert their number arguments with `toInt()`: the time-settings handler its
  three settings, the watches handler each slot's turns per day and direction code. The model
  takes the converted integers, or their absence, as parameters.
- `mktime`, `now()` and `hour()` are library calls, modelled under the stated assumption. Whether
  a 32-bit `time_t` can hold the year-1900 reference date is not modelled.
- `Serial` logging is not modelled.
- The constructor's `strcpy` of credential and address strings is not modelled.
- `SetupMovement` has an empty body. `GetAllWatchMovementSuppliers` returns a copy of the vector;
  the model reads the field directly.
- Winder.WatchWinder.SendToBuffer: requires the string to fit in `BUFFER_SIZE`. A longer string
  makes the source's `memcpy` write past the end of the buffer, which has no defined behaviour to
  model. The source does not guarantee the bound at every call site: `HandleWatchesJSON` passes
  the whole watches document, whose length grows with the user-set names, and nothing limits a
  name's length when it is saved. A long enough name therefore overflows the buffer (an
  observation from reading the code, not executed).
- Integer widths: the set-up rpm constant `kdefault_rpm` is a `short`, and the setters take
  turns per day as an `int`; the type in which a supplier stores its rpm is not visible. The model
  uses unbounded integers. The only arithmetic on them is the rpm constant 38, which fits, and
  stored values are only copied.
- Strings are sequences of characters. Bytes, encodings and `String` memory management are not
  modelled.
