/**
 * The positional watch-slot store of WatchWinder: the vector of movement suppliers, each owning
 * an rpm value and an ordered list of (requirement, turning-like-stepper) pairs, and the slot
 * accessors that address requirement 0, 1 or 2 of supplier 0 ("first", "second", "third" watch).
 *
 * Everything here is a value; the controller class in module Winder holds the vector in a
 * field and reassigns it through these functions.
 */
module Watches {
  import opened Options

  /** Turning-direction codes. The handlers cast any integer to the enum, so a code is an int. */
  type TurningDirection = int

  const BOTHDIRECTIONS: TurningDirection := 2

  /** Default daily turns of every slot. */
  const DEFAULT_TURNS_PER_DAY: int := 720

  /** The mechanical constants from which the reference supplier's rpm is derived. */
  const DESIRED_WATCH_RPM: int := 19
  const PINION_NUMBER_TEETH: int := 23
  const GEAR_NUMBER_TEETH: int := 55

  /** The rpm of a default-constructed supplier. */
  const UNSET_RPM: int := 0

  datatype WatchRequirement = WatchRequirement(name: string, turningDirection: TurningDirection, revolutionsPerDay: int)

  /** `WatchRequirementTurningLikeStepper`: a requirement and whether that watch turns like the stepper. */
  datatype MountedWatch = MountedWatch(requirement: WatchRequirement, turningLikeStepper: bool)

  datatype WatchMovementSupplier = WatchMovementSupplier(rpm: int, requirements: seq<MountedWatch>)

  type Suppliers = seq<WatchMovementSupplier>

  /** The three addressable watch slots, all on supplier 0. */
  datatype Slot = First | Second | Third {
    function Index(): nat {
      match this
      case First => 0
      case Second => 1
      case Third => 2
    }

    function DefaultName(): string {
      match this
      case First => "First Watch"
      case Second => "Second Watch"
      case Third => "Third Watch"
    }

    /** The key prefix of the slot in requests and in the JSON document. */
    function Key(): string {
      match this
      case First => "first"
      case Second => "second"
      case Third => "third"
    }
  }

  /** What one slot reports: its name, turns per day and direction code. */
  datatype WatchView = WatchView(name: string, turnsPerDay: int, turnDirection: TurningDirection)

  function DefaultView(slot: Slot): WatchView {
    WatchView(slot.DefaultName(), DEFAULT_TURNS_PER_DAY, BOTHDIRECTIONS)
  }

  /** The slot exists: there is a supplier 0 and it holds more than `slot.Index()` requirements. */
  predicate HasSlot(ss: Suppliers, slot: Slot) {
    |ss| > 0 && |ss[0].requirements| > slot.Index()
  }

  function RequirementAt(ss: Suppliers, slot: Slot): (r: Option<WatchRequirement>)
    ensures r.Some? <==> HasSlot(ss, slot)
  {
    if HasSlot(ss, slot) then Some(ss[0].requirements[slot.Index()].requirement) else None
  }

  // ---------------------------------------------------------------------------------------------
  // Getters: the stored value when the slot exists, the slot's default otherwise.

  function GetWatchName(ss: Suppliers, slot: Slot): (r: string)
    ensures HasSlot(ss, slot) ==> r == ss[0].requirements[slot.Index()].requirement.name
    ensures !HasSlot(ss, slot) ==> r == slot.DefaultName()
  {
    match RequirementAt(ss, slot)
    case Some(q) => q.name
    case None => slot.DefaultName()
  }

  function GetWatchTurnsPerDay(ss: Suppliers, slot: Slot): (r: int)
    ensures HasSlot(ss, slot) ==> r == ss[0].requirements[slot.Index()].requirement.revolutionsPerDay
    ensures !HasSlot(ss, slot) ==> r == DEFAULT_TURNS_PER_DAY
  {
    match RequirementAt(ss, slot)
    case Some(q) => q.revolutionsPerDay
    case None => DEFAULT_TURNS_PER_DAY
  }

  function GetWatchTurnDirection(ss: Suppliers, slot: Slot): (r: TurningDirection)
    ensures HasSlot(ss, slot) ==> r == ss[0].requirements[slot.Index()].requirement.turningDirection
    ensures !HasSlot(ss, slot) ==> r == BOTHDIRECTIONS
  {
    match RequirementAt(ss, slot)
    case Some(q) => q.turningDirection
    case None => BOTHDIRECTIONS
  }

  /** The three getters of one slot together. */
  function View(ss: Suppliers, slot: Slot): WatchView {
    WatchView(GetWatchName(ss, slot), GetWatchTurnsPerDay(ss, slot), GetWatchTurnDirection(ss, slot))
  }

  // ---------------------------------------------------------------------------------------------
  // Setters: change one attribute of one slot, or nothing when the slot is missing.

  /**
   * What no slot accessor ever changes: the number of suppliers, every supplier but 0, supplier
   * 0's rpm and requirement count, every `turningLikeStepper` flag, and every requirement past
   * the three addressable slots.
   */
  ghost predicate SameShape(ss: Suppliers, r: Suppliers) {
    && |r| == |ss|
    && (forall j :: 1 <= j < |ss| ==> r[j] == ss[j])
    && (|ss| > 0 ==>
          && r[0].rpm == ss[0].rpm
          && |r[0].requirements| == |ss[0].requirements|
          && (forall k :: 0 <= k < |ss[0].requirements| ==>
                && r[0].requirements[k].turningLikeStepper == ss[0].requirements[k].turningLikeStepper
                && (k > 2 ==> r[0].requirements[k] == ss[0].requirements[k])))
  }

  /** Everything a setter of `slot` must leave alone: the shape and every other requirement. */
  ghost predicate Unaddressed(ss: Suppliers, r: Suppliers, slot: Slot) {
    && SameShape(ss, r)
    && (|ss| > 0 ==>
          forall k :: 0 <= k < |ss[0].requirements| && k != slot.Index() ==>
            r[0].requirements[k] == ss[0].requirements[k])
  }

  /** Replaces the requirement at an existing slot, keeping its flag. */
  function ReplaceRequirement(ss: Suppliers, slot: Slot, q: WatchRequirement): (r: Suppliers)
    requires HasSlot(ss, slot)
    ensures Unaddressed(ss, r, slot)
    ensures HasSlot(r, slot) && r[0].requirements[slot.Index()].requirement == q
  {
    var supplier := ss[0];
    var i := slot.Index();
    var mounted := supplier.requirements[i].(requirement := q);
    ss[0 := supplier.(requirements := supplier.requirements[i := mounted])]
  }

  function WithWatchName(ss: Suppliers, slot: Slot, name: string): (r: Suppliers)
    ensures Unaddressed(ss, r, slot)
    ensures HasSlot(ss, slot) ==>
              r[0].requirements[slot.Index()].requirement
                == ss[0].requirements[slot.Index()].requirement.(name := name)
    ensures !HasSlot(ss, slot) ==> r == ss
    ensures forall s :: HasSlot(r, s) == HasSlot(ss, s)
    ensures forall s :: View(r, s) == if s == slot && HasSlot(ss, slot) then View(ss, s).(name := name) else View(ss, s)
  {
    match RequirementAt(ss, slot)
    case Some(q) => ReplaceRequirement(ss, slot, q.(name := name))
    case None => ss
  }

  function WithWatchTurnsPerDay(ss: Suppliers, slot: Slot, turns: int): (r: Suppliers)
    ensures Unaddressed(ss, r, slot)
    ensures HasSlot(ss, slot) ==>
              r[0].requirements[slot.Index()].requirement
                == ss[0].requirements[slot.Index()].requirement.(revolutionsPerDay := turns)
    ensures !HasSlot(ss, slot) ==> r == ss
    ensures forall s :: HasSlot(r, s) == HasSlot(ss, s)
    ensures forall s :: View(r, s) == if s == slot && HasSlot(ss, slot) then View(ss, s).(turnsPerDay := turns) else View(ss, s)
  {
    match RequirementAt(ss, slot)
    case Some(q) => ReplaceRequirement(ss, slot, q.(revolutionsPerDay := turns))
    case None => ss
  }

  function WithWatchTurnDirection(ss: Suppliers, slot: Slot, direction: TurningDirection): (r: Suppliers)
    ensures Unaddressed(ss, r, slot)
    ensures HasSlot(ss, slot) ==>
              r[0].requirements[slot.Index()].requirement
                == ss[0].requirements[slot.Index()].requirement.(turningDirection := direction)
    ensures !HasSlot(ss, slot) ==> r == ss
    ensures forall s :: HasSlot(r, s) == HasSlot(ss, s)
    ensures forall s :: View(r, s) == if s == slot && HasSlot(ss, slot) then View(ss, s).(turnDirection := direction) else View(ss, s)
  {
    match RequirementAt(ss, slot)
    case Some(q) => ReplaceRequirement(ss, slot, q.(turningDirection := direction))
    case None => ss
  }

  // ---------------------------------------------------------------------------------------------
  // The save and reset handlers.

  /** The fields of one slot that a save request carries; a missing field is `None`. */
  datatype SlotFields = SlotFields(name: Option<string>, turnsPerDay: Option<int>, turnDirection: Option<TurningDirection>)

  /** A save request: the `first*`, `second*` and `third*` arguments, already converted with `toInt()`. */
  datatype SaveRequest = SaveRequest(first: SlotFields, second: SlotFields, third: SlotFields) {
    function Fields(slot: Slot): SlotFields {
      match slot
      case First => first
      case Second => second
      case Third => third
    }
  }

  /** What a slot reports once the present fields of `f` have been written to it. */
  function UpdatedView(v: WatchView, f: SlotFields): WatchView {
    WatchView(
      if f.name.Some? then f.name.value else v.name,
      if f.turnsPerDay.Some? then f.turnsPerDay.value else v.turnsPerDay,
      if f.turnDirection.Some? then f.turnDirection.value else v.turnDirection)
  }

  /** The three setter calls of one slot, each made only when its field is present. */
  function ApplySlotFields(ss: Suppliers, slot: Slot, f: SlotFields): (r: Suppliers)
    ensures Unaddressed(ss, r, slot)
    ensures forall s :: HasSlot(r, s) == HasSlot(ss, s)
    ensures forall s :: View(r, s) == if s == slot && HasSlot(ss, slot) then UpdatedView(View(ss, s), f) else View(ss, s)
  {
    var afterName := if f.name.Some? then WithWatchName(ss, slot, f.name.value) else ss;
    var afterTurns := if f.turnsPerDay.Some? then WithWatchTurnsPerDay(afterName, slot, f.turnsPerDay.value) else afterName;
    if f.turnDirection.Some? then WithWatchTurnDirection(afterTurns, slot, f.turnDirection.value) else afterTurns
  }

  /** `HandleWatchesSaveJSON`: the first, then the second, then the third slot's fields. */
  function ApplySave(ss: Suppliers, request: SaveRequest): Suppliers {
    var afterFirst := ApplySlotFields(ss, First, request.first);
    var afterSecond := ApplySlotFields(afterFirst, Second, request.second);
    ApplySlotFields(afterSecond, Third, request.third)
  }

  /** The request that `HandleWatchesResetJSON` amounts to: every field present, with its default. */
  function ResetRequest(): SaveRequest {
    SaveRequest(DefaultFields(First), DefaultFields(Second), DefaultFields(Third))
  }

  function DefaultFields(slot: Slot): SlotFields {
    SlotFields(Some(slot.DefaultName()), Some(DEFAULT_TURNS_PER_DAY), Some(BOTHDIRECTIONS))
  }

  function ResetWatches(ss: Suppliers): Suppliers {
    ApplySave(ss, ResetRequest())
  }

  /**
   * A save writes exactly the present fields of the addressed slots: a slot that exists reports
   * the request's value for every present field and its old value for every absent one; a slot
   * that does not exist keeps reporting its default; nothing outside the three slots changes.
   */
  lemma SaveAppliesPresentFields(ss: Suppliers, request: SaveRequest)
    ensures SameShape(ss, ApplySave(ss, request))
    ensures forall s :: HasSlot(ApplySave(ss, request), s) == HasSlot(ss, s)
    ensures forall s :: View(ApplySave(ss, request), s)
                          == if HasSlot(ss, s) then UpdatedView(View(ss, s), request.Fields(s)) else View(ss, s)
  {
    var a := ApplySlotFields(ss, First, request.first);
    var b := ApplySlotFields(a, Second, request.second);
    var c := ApplySlotFields(b, Third, request.third);
    SameShapeTransitive(ss, a, b);
    SameShapeTransitive(ss, b, c);
    forall s
      ensures HasSlot(c, s) == HasSlot(ss, s)
      ensures View(c, s) == if HasSlot(ss, s) then UpdatedView(View(ss, s), request.Fields(s)) else View(ss, s)
    {
      assert HasSlot(a, s) == HasSlot(ss, s) && HasSlot(b, s) == HasSlot(a, s) && HasSlot(c, s) == HasSlot(b, s);
      var va, vb, vc := View(a, s), View(b, s), View(c, s);
      assert va == if s == First && HasSlot(ss, First) then UpdatedView(View(ss, s), request.first) else View(ss, s);
      assert vb == if s == Second && HasSlot(a, Second) then UpdatedView(va, request.second) else va;
      assert vc == if s == Third && HasSlot(b, Third) then UpdatedView(vb, request.third) else vb;
    }
  }

  lemma SameShapeTransitive(a: Suppliers, b: Suppliers, c: Suppliers)
    requires SameShape(a, b) && SameShape(b, c)
    ensures SameShape(a, c)
  {
  }

  /**
   * After a reset every slot reports its default, whether or not it exists; the supplier
   * vector keeps its shape (requirement count, flags, rpm, other suppliers).
   */
  lemma ResetRestoresDefaults(ss: Suppliers)
    ensures SameShape(ss, ResetWatches(ss))
    ensures forall s :: View(ResetWatches(ss), s) == DefaultView(s)
  {
    SaveAppliesPresentFields(ss, ResetRequest());
  }

  // ---------------------------------------------------------------------------------------------
  // Building the store.

  /**
   * The one supplier `SetupWatchMovementSuppliers` appends: rpm (55 / 23) * 19 in integer
   * arithmetic, and the three default watches in mounting order, with flags false, true, false.
   */
  function ReferenceSupplier(): (s: WatchMovementSupplier)
    ensures s.rpm == 38
    ensures |s.requirements| == 3
    ensures forall slot: Slot :: s.requirements[slot.Index()].requirement
                                   == WatchRequirement(slot.DefaultName(), BOTHDIRECTIONS, DEFAULT_TURNS_PER_DAY)
    ensures !s.requirements[0].turningLikeStepper
    ensures s.requirements[1].turningLikeStepper
    ensures !s.requirements[2].turningLikeStepper
  {
    WatchMovementSupplier(
      GEAR_NUMBER_TEETH / PINION_NUMBER_TEETH * DESIRED_WATCH_RPM,
      [DefaultWatch(First, false), DefaultWatch(Second, true), DefaultWatch(Third, false)])
  }

  /** A watch mounted at `slot` with the default requirement. */
  function DefaultWatch(slot: Slot, turningLikeStepper: bool): MountedWatch {
    MountedWatch(WatchRequirement(slot.DefaultName(), BOTHDIRECTIONS, DEFAULT_TURNS_PER_DAY), turningLikeStepper)
  }

  /** The supplier `AddWatchMovementSupplier` appends: default-constructed, with no requirements. */
  function EmptySupplier(): WatchMovementSupplier {
    WatchMovementSupplier(UNSET_RPM, [])
  }

  /** Only supplier 0 is addressed: appending a supplier to a non-empty vector changes no slot. */
  lemma AppendedSupplierUnseen(ss: Suppliers, x: WatchMovementSupplier)
    requires |ss| > 0
    ensures forall s :: HasSlot(ss + [x], s) == HasSlot(ss, s) && View(ss + [x], s) == View(ss, s)
  {
    assert (ss + [x])[0] == ss[0];
  }

  /**
   * Setting up an empty store creates all three slots, and they report exactly what a reset
   * reports.
   */
  lemma SetupOnEmptyStore(other: Suppliers)
    ensures forall s :: HasSlot([ReferenceSupplier()], s)
    ensures forall s :: View([ReferenceSupplier()], s) == DefaultView(s) == View(ResetWatches(other), s)
  {
    ResetRestoresDefaults(other);
  }
}
