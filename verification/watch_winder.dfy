/**
 * The WatchWinder controller: the object that owns the supplier vector, the time settings it
 * gates movement with, and the outgoing content buffer of its web pages.
 *
 * The web server is represented only by what `sendContent_P` sends, collected in the ghost
 * sequence `sent`. The settings object is represented by the values of its three getters.
 */
module Winder {
  import opened Options
  import opened Watches
  import TimeOfDay
  import WatchesJson

  class WatchWinder {
    /** `watch_movement_suppliers_` */
    var suppliers: Suppliers

    /** What `timesettings_.GetTimezoneshift()`, `GetEarliestallowed()`, `GetLatestallowed()` return. */
    var timezoneShift: int
    var earliestAllowed: int
    var latestAllowed: int

    /** `earliest_allowed_movement_` and `latest_allowed_movement_`, as instants. */
    var earliestAllowedMovement: int
    var latestAllowedMovement: int

    /** `data_website_buffer_`; its length is `BUFFER_SIZE`. */
    const websiteBuffer: array<char>
    /** `buffer_counter_`: how many characters of `websiteBuffer` are waiting to be sent. */
    var bufferCounter: nat

    /** Everything `sendContent_P` has sent from the buffer so far. */
    ghost var sent: seq<char>
    /** Everything ever handed to `SendToBuffer`, in order. */
    ghost var appended: seq<char>

    /**
     * The buffer invariant: the buffer is not empty-sized, the fill counter stays within it, and
     * what was sent followed by what is pending is exactly what was appended.
     */
    ghost predicate Valid()
      reads this`bufferCounter, this`sent, this`appended, websiteBuffer
    {
      && 0 < websiteBuffer.Length
      && bufferCounter <= websiteBuffer.Length
      && sent + websiteBuffer[..bufferCounter] == appended
    }

    /** The characters waiting in the buffer. */
    ghost function Pending(): seq<char>
      reads this`bufferCounter, websiteBuffer
      requires bufferCounter <= websiteBuffer.Length
    {
      websiteBuffer[..bufferCounter]
    }

    /** The allowed-movement instants are those derived from the current settings. */
    ghost predicate SettingsApplied()
      reads this`timezoneShift, this`earliestAllowed, this`latestAllowed,
            this`earliestAllowedMovement, this`latestAllowedMovement
    {
      && earliestAllowedMovement == TimeOfDay.ConvertEpochHourToUnixTimestamp(earliestAllowed, timezoneShift)
      && latestAllowedMovement == TimeOfDay.ConvertEpochHourToUnixTimestamp(latestAllowed, timezoneShift)
    }

    /**
     * The constructor: no suppliers yet, an empty buffer of `bufferSize` characters, and the
     * allowed-movement instants derived from the settings object's initial values.
     */
    constructor (bufferSize: nat, timezoneShift: int, earliestAllowed: int, latestAllowed: int)
      requires 0 < bufferSize
      ensures Valid() && SettingsApplied()
      ensures fresh(websiteBuffer) && websiteBuffer.Length == bufferSize
      ensures suppliers == [] && bufferCounter == 0 && sent == [] && appended == []
      ensures this.timezoneShift == timezoneShift
      ensures this.earliestAllowed == earliestAllowed && this.latestAllowed == latestAllowed
    {
      suppliers := [];
      this.timezoneShift := timezoneShift;
      this.earliestAllowed := earliestAllowed;
      this.latestAllowed := latestAllowed;
      websiteBuffer := new char[bufferSize];
      bufferCounter := 0;
      sent := [];
      appended := [];
      new;
      ApplyTimesettings();
    }

    // -------------------------------------------------------------------------------------------
    // Building the supplier vector.

    /** Appends the one reference supplier with its three default watches. */
    method SetupWatchMovementSuppliers()
      modifies this`suppliers
      ensures suppliers == old(suppliers) + [ReferenceSupplier()]
    {
      var stepper := EmptySupplier();
      var defaultRpm := GEAR_NUMBER_TEETH / PINION_NUMBER_TEETH * DESIRED_WATCH_RPM;
      stepper := stepper.(rpm := defaultRpm);
      var firstWatch := MountedWatch(WatchRequirement("First Watch", BOTHDIRECTIONS, DEFAULT_TURNS_PER_DAY), false);
      var secondWatch := MountedWatch(WatchRequirement("Second Watch", BOTHDIRECTIONS, DEFAULT_TURNS_PER_DAY), true);
      var thirdWatch := MountedWatch(WatchRequirement("Third Watch", BOTHDIRECTIONS, DEFAULT_TURNS_PER_DAY), false);
      stepper := stepper.(requirements := stepper.requirements + [firstWatch]);
      stepper := stepper.(requirements := stepper.requirements + [secondWatch]);
      stepper := stepper.(requirements := stepper.requirements + [thirdWatch]);
      assert stepper.requirements == [DefaultWatch(First, false), DefaultWatch(Second, true), DefaultWatch(Third, false)];
      suppliers := suppliers + [stepper];
    }

    /** Appends a default-constructed supplier. */
    method AddWatchMovementSupplier()
      modifies this`suppliers
      ensures suppliers == old(suppliers) + [EmptySupplier()]
    {
      suppliers := suppliers + [EmptySupplier()];
    }

    // -------------------------------------------------------------------------------------------
    // Slot setters: each writes one attribute of requirement `slot` of supplier 0 in place, and
    // does nothing when that requirement does not exist.

    method SetWatchName(slot: Slot, name: string)
      modifies this`suppliers
      ensures suppliers == WithWatchName(old(suppliers), slot, name)
    {
      if |suppliers| > 0 && |suppliers[0].requirements| > slot.Index() {
        var supplier := suppliers[0];
        var mounted := supplier.requirements[slot.Index()];
        mounted := mounted.(requirement := mounted.requirement.(name := name));
        suppliers := suppliers[0 := supplier.(requirements := supplier.requirements[slot.Index() := mounted])];
      }
    }

    method SetWatchTurnsPerDay(slot: Slot, revolutionsPerDay: int)
      modifies this`suppliers
      ensures suppliers == WithWatchTurnsPerDay(old(suppliers), slot, revolutionsPerDay)
    {
      if |suppliers| > 0 && |suppliers[0].requirements| > slot.Index() {
        var supplier := suppliers[0];
        var mounted := supplier.requirements[slot.Index()];
        mounted := mounted.(requirement := mounted.requirement.(revolutionsPerDay := revolutionsPerDay));
        suppliers := suppliers[0 := supplier.(requirements := supplier.requirements[slot.Index() := mounted])];
      }
    }

    method SetWatchTurnDirection(slot: Slot, turningDirection: TurningDirection)
      modifies this`suppliers
      ensures suppliers == WithWatchTurnDirection(old(suppliers), slot, turningDirection)
    {
      if |suppliers| > 0 && |suppliers[0].requirements| > slot.Index() {
        var supplier := suppliers[0];
        var mounted := supplier.requirements[slot.Index()];
        mounted := mounted.(requirement := mounted.requirement.(turningDirection := turningDirection));
        suppliers := suppliers[0 := supplier.(requirements := supplier.requirements[slot.Index() := mounted])];
      }
    }

    // -------------------------------------------------------------------------------------------
    // The save and reset handlers, as state updates (the HTTP reply is not modelled).

    /** Calls the setter of every field present in the request, slot by slot. */
    method HandleWatchesSaveJSON(request: SaveRequest)
      modifies this`suppliers
      ensures suppliers == ApplySave(old(suppliers), request)
    {
      SaveSlotFields(First, request.first);
      SaveSlotFields(Second, request.second);
      SaveSlotFields(Third, request.third);
    }

    /** The three guarded setter calls of one slot: name, turns per day, direction. */
    method SaveSlotFields(slot: Slot, fields: SlotFields)
      modifies this`suppliers
      ensures suppliers == ApplySlotFields(old(suppliers), slot, fields)
    {
      if fields.name.Some? {
        SetWatchName(slot, fields.name.value);
      }
      if fields.turnsPerDay.Some? {
        SetWatchTurnsPerDay(slot, fields.turnsPerDay.value);
      }
      if fields.turnDirection.Some? {
        SetWatchTurnDirection(slot, fields.turnDirection.value);
      }
    }

    /** Writes every slot's default name, 720 turns per day and BOTHDIRECTIONS through the setters. */
    method HandleWatchesResetJSON()
      modifies this`suppliers
      ensures suppliers == ResetWatches(old(suppliers))
      ensures forall s :: View(suppliers, s) == DefaultView(s)
      ensures SameShape(old(suppliers), suppliers)
    {
      ghost var before := suppliers;
      SetWatchName(First, "First Watch");
      SetWatchTurnsPerDay(First, DEFAULT_TURNS_PER_DAY);
      SetWatchTurnDirection(First, BOTHDIRECTIONS);

      SetWatchName(Second, "Second Watch");
      SetWatchTurnsPerDay(Second, DEFAULT_TURNS_PER_DAY);
      SetWatchTurnDirection(Second, BOTHDIRECTIONS);

      SetWatchName(Third, "Third Watch");
      SetWatchTurnsPerDay(Third, DEFAULT_TURNS_PER_DAY);
      SetWatchTurnDirection(Third, BOTHDIRECTIONS);
      ResetRestoresDefaults(before);
    }

    // -------------------------------------------------------------------------------------------
    // The time-of-day gate.

    /** Derives both allowed-movement instants from the current settings. */
    method ApplyTimesettings()
      modifies this`earliestAllowedMovement, this`latestAllowedMovement
      ensures SettingsApplied()
    {
      earliestAllowedMovement := TimeOfDay.ConvertEpochHourToUnixTimestamp(earliestAllowed, timezoneShift);
      latestAllowedMovement := TimeOfDay.ConvertEpochHourToUnixTimestamp(latestAllowed, timezoneShift);
    }

    /**
     * Whether the clock readings `firstNow` and `secondNow` lie in the allowed hours: the first
     * is compared with the earliest instant's hour and the second with the latest instant's
     * hour. Once the settings are applied and the configured hours are in 0..23, that is the
     * inclusive range check on the configured hours, whatever the time-zone shift.
     */
    function InAllowedTimeFrameOfDay(firstNow: int, secondNow: int): (r: bool)
      reads this`timezoneShift, this`earliestAllowed, this`latestAllowed,
            this`earliestAllowedMovement, this`latestAllowedMovement
      ensures SettingsApplied() && 0 <= earliestAllowed < 24 && 0 <= latestAllowed < 24 ==>
                (r <==> earliestAllowed <= TimeOfDay.HourOfDay(firstNow) && TimeOfDay.HourOfDay(secondNow) <= latestAllowed)
    {
      var r := TimeOfDay.InAllowedTimeFrameOfDay(TimeOfDay.HourOfDay(firstNow), TimeOfDay.HourOfDay(secondNow),
                                                 TimeOfDay.HourOfDay(earliestAllowedMovement),
                                                 TimeOfDay.HourOfDay(latestAllowedMovement));
      assert SettingsApplied() && 0 <= earliestAllowed < 24 && 0 <= latestAllowed < 24 ==>
               (r <==> earliestAllowed <= TimeOfDay.HourOfDay(firstNow) && TimeOfDay.HourOfDay(secondNow) <= latestAllowed) by {
        if 0 <= earliestAllowed < 24 && 0 <= latestAllowed < 24 {
          TimeOfDay.GateIgnoresShift(earliestAllowed, latestAllowed, timezoneShift, firstNow, secondNow);
        }
      }
      r
    }

    /**
     * One tick: consults the gate with the two clock readings it takes and reports whether the
     * time is allowed. The loop over the suppliers that follows an allowed check has an empty
     * body, so a tick changes no state.
     */
    method Step(firstNow: int, secondNow: int) returns (timeIsOk: bool)
      ensures timeIsOk == InAllowedTimeFrameOfDay(firstNow, secondNow)
    {
      timeIsOk := InAllowedTimeFrameOfDay(firstNow, secondNow);
    }

    /**
     * The time-settings save handler: each setting present in the request is written, then both
     * allowed-movement instants are derived again. Suppliers and buffer are untouched.
     */
    method HandleTimesettingsSaveJSON(timezoneShiftArg: Option<int>, earliestAllowedArg: Option<int>,
                                      latestAllowedArg: Option<int>)
      modifies this`timezoneShift, this`earliestAllowed, this`latestAllowed,
               this`earliestAllowedMovement, this`latestAllowedMovement
      ensures timezoneShift == if timezoneShiftArg.Some? then timezoneShiftArg.value else old(timezoneShift)
      ensures earliestAllowed == if earliestAllowedArg.Some? then earliestAllowedArg.value else old(earliestAllowed)
      ensures latestAllowed == if latestAllowedArg.Some? then latestAllowedArg.value else old(latestAllowed)
      ensures SettingsApplied()
    {
      if timezoneShiftArg.Some? {
        timezoneShift := timezoneShiftArg.value;
      }
      if earliestAllowedArg.Some? {
        earliestAllowed := earliestAllowedArg.value;
      }
      if latestAllowedArg.Some? {
        latestAllowed := latestAllowedArg.value;
      }
      ApplyTimesettings();
    }

    /**
     * The time-settings reset handler: the settings take the values the settings object resets
     * to, given here as parameters, then both allowed-movement instants are derived again.
     */
    method HandleTimesettingsResetJSON(defaultTimezoneShift: int, defaultEarliestAllowed: int,
                                       defaultLatestAllowed: int)
      modifies this`timezoneShift, this`earliestAllowed, this`latestAllowed,
               this`earliestAllowedMovement, this`latestAllowedMovement
      ensures timezoneShift == defaultTimezoneShift
      ensures earliestAllowed == defaultEarliestAllowed && latestAllowed == defaultLatestAllowed
      ensures SettingsApplied()
    {
      timezoneShift, earliestAllowed, latestAllowed := defaultTimezoneShift, defaultEarliestAllowed, defaultLatestAllowed;
      ApplyTimesettings();
    }

    // -------------------------------------------------------------------------------------------
    // The outgoing content buffer.

    /** Sends what the buffer holds, if anything, and empties it. */
    method SendBuffer()
      requires Valid()
      modifies this`bufferCounter, this`sent
      ensures Valid() && bufferCounter == 0
      ensures sent == old(sent) + old(Pending())
      ensures old(bufferCounter) == 0 ==> sent == old(sent)
    {
      if bufferCounter > 0 {
        sent := sent + websiteBuffer[..bufferCounter];
        bufferCounter := 0;
      }
    }

    /**
     * Copies `str` behind the pending characters; when they would not fit, first sends the
     * pending characters and starts over at the front of the buffer.
     */
    method SendToBuffer(str: string)
      requires Valid()
      requires |str| <= websiteBuffer.Length
      modifies this`bufferCounter, this`sent, this`appended, websiteBuffer
      ensures Valid()
      ensures appended == old(appended) + str
      ensures old(bufferCounter) + |str| > websiteBuffer.Length ==>
                sent == old(sent) + old(Pending()) && Pending() == str
      ensures old(bufferCounter) + |str| <= websiteBuffer.Length ==>
                sent == old(sent) && Pending() == old(Pending()) + str
    {
      var length := |str|;
      if bufferCounter + length > websiteBuffer.Length {
        sent := sent + websiteBuffer[..bufferCounter];
        bufferCounter := 0;
      }
      ghost var kept := websiteBuffer[..bufferCounter];
      forall k | 0 <= k < length {
        websiteBuffer[bufferCounter + k] := str[k];
      }
      assert websiteBuffer[..bufferCounter] == kept;
      assert websiteBuffer[bufferCounter..bufferCounter + length] == str;
      assert websiteBuffer[..bufferCounter + length]
          == websiteBuffer[..bufferCounter] + websiteBuffer[bufferCounter..bufferCounter + length];
      bufferCounter := bufferCounter + length;
      appended := appended + str;
    }

    // -------------------------------------------------------------------------------------------
    // The JSON document of the three slots.

    /**
     * The document of the nine slot getters. The fixed-shape reader `ParseWatchesJson` reads it
     * back as exactly what the getters report precisely when no reported name contains a double
     * quote. A general JSON reader also misreads a name holding a backslash or a control
     * character, since names are copied without escaping.
     */
    function GetWatchesJSON(): (json: string)
      reads this`suppliers
      ensures WatchesJson.ParseWatchesJson(json) == Some((View(suppliers, First), View(suppliers, Second), View(suppliers, Third)))
              <==> '"' !in GetWatchName(suppliers, First) && '"' !in GetWatchName(suppliers, Second)
                   && '"' !in GetWatchName(suppliers, Third)
    {
      var first, second, third := View(suppliers, First), View(suppliers, Second), View(suppliers, Third);
      WatchesJson.JsonRoundTrip(first, second, third);
      WatchesJson.WatchesJsonText(first, second, third)
    }
  }
}
