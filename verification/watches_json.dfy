/**
 * The JSON document `GetWatchesJSON` builds from the nine slot getters, and a reader for that
 * fixed shape. Names are copied without escaping and direction codes are written as quoted
 * decimal integers; turns per day are written as bare decimal integers.
 */
module WatchesJson {
  import opened Options
  import opened Decimal
  import opened Watches

  /** `"<key>watchname":"`, which opens a slot's name member. */
  function NameMember(slot: Slot): string {
    "\"" + slot.Key() + "watchname\":\""
  }

  /** `,"<key>watchturnsperday":`, which follows the quote closing the name. */
  function TurnsMember(slot: Slot): string {
    ",\"" + slot.Key() + "watchturnsperday\":"
  }

  /** `"<key>watchturndirection":"`, which follows the comma after the turns. */
  function DirectionMember(slot: Slot): string {
    "\"" + slot.Key() + "watchturndirection\":\""
  }

  /**
   * The three members of one slot, without the separator that follows them:
   * `"<key>watchname":"<name>","<key>watchturnsperday":<turns>,"<key>watchturndirection":"<code>"`
   */
  function SlotJson(slot: Slot, v: WatchView): string {
    NameMember(slot) + v.name + "\"" + TurnsMember(slot) + IntToDecimal(v.turnsPerDay)
    + "," + DirectionMember(slot) + IntToDecimal(v.turnDirection) + "\""
  }

  /** The whole document: `{`, the three slots in order separated by `,`, then `}`. */
  function WatchesJsonText(first: WatchView, second: WatchView, third: WatchView): string {
    "{" + SlotJson(First, first) + "," + SlotJson(Second, second) + "," + SlotJson(Third, third) + "}"
  }

  // ---------------------------------------------------------------------------------------------
  // Reading the document back.

  function StripPrefix(prefix: string, s: string): (r: Option<string>)
    ensures r.Some? ==> s == prefix + r.value
  {
    if prefix <= s then Some(s[|prefix|..]) else None
  }

  /** Splits `s` at the first occurrence of `c`: the part before it and the part after it. */
  function SplitAt(c: char, s: string): (r: Option<(string, string)>)
    ensures r.Some? ==> c !in r.value.0 && s == r.value.0 + [c] + r.value.1
    ensures r.None? ==> c !in s
  {
    if s == [] then None
    else if s[0] == c then Some(([], s[1..]))
    else match SplitAt(c, s[1..])
      case None => None
      case Some((before, after)) => Some(([s[0]] + before, after))
  }

  /**
   * A name the fixed-shape reader can carry: one without a double quote. A general JSON reader
   * also needs the name free of backslashes and control characters.
   */
  predicate QuoteFree(v: WatchView) {
    '"' !in v.name
  }

  /** Reads one slot's three members from the front of `s`; returns the slot and what follows. */
  function ParseSlot(slot: Slot, s: string): (r: Option<(WatchView, string)>)
    ensures r.Some? ==> QuoteFree(r.value.0)
  {
    match StripPrefix(NameMember(slot), s)
    case None => None
    case Some(s1) =>
      match SplitAt('"', s1)
      case None => None
      case Some((name, s2)) =>
        match StripPrefix(TurnsMember(slot), s2)
        case None => None
        case Some(s3) =>
          match SplitAt(',', s3)
          case None => None
          case Some((turnsText, s4)) =>
            match StripPrefix(DirectionMember(slot), s4)
            case None => None
            case Some(s5) =>
              match SplitAt('"', s5)
              case None => None
              case Some((directionText, rest)) =>
                match (ParseInt(turnsText), ParseInt(directionText))
                case (Some(turns), Some(direction)) => Some((WatchView(name, turns, direction), rest))
                case _ => None
  }

  /** Reads a whole document of the shape `WatchesJsonText` writes. */
  function ParseWatchesJson(s: string): (r: Option<(WatchView, WatchView, WatchView)>)
    ensures r.Some? ==> QuoteFree(r.value.0) && QuoteFree(r.value.1) && QuoteFree(r.value.2)
  {
    match StripPrefix("{", s)
    case None => None
    case Some(s0) =>
      match ParseSlot(First, s0)
      case None => None
      case Some((first, s1)) =>
        match StripPrefix(",", s1)
        case None => None
        case Some(s2) =>
          match ParseSlot(Second, s2)
          case None => None
          case Some((second, s3)) =>
            match StripPrefix(",", s3)
            case None => None
            case Some(s4) =>
              match ParseSlot(Third, s4)
              case None => None
              case Some((third, s5)) => if s5 == "}" then Some((first, second, third)) else None
  }

  // ---------------------------------------------------------------------------------------------
  // Round trip.

  lemma StripConcat(prefix: string, rest: string)
    ensures StripPrefix(prefix, prefix + rest) == Some(rest)
  {
    assert prefix <= prefix + rest;
    assert (prefix + rest)[|prefix|..] == rest;
  }

  lemma {:induction false} SplitConcat(c: char, before: string, after: string)
    requires c !in before
    ensures SplitAt(c, before + [c] + after) == Some((before, after))
  {
    var s := before + [c] + after;
    if before != [] {
      assert s[1..] == before[1..] + [c] + after;
      SplitConcat(c, before[1..], after);
      assert [s[0]] + before[1..] == before;
    }
  }

  lemma DecimalHasNoSeparator(n: int)
    ensures '"' !in IntToDecimal(n) && ',' !in IntToDecimal(n)
  {
  }

  lemma SlotParts(p1: string, name: string, p2: string, turns: string, p3: string, direction: string, rest: string)
    ensures p1 + name + "\"" + p2 + turns + "," + p3 + direction + "\"" + rest
            == p1 + (name + ['"'] + (p2 + (turns + [','] + (p3 + (direction + ['"'] + rest)))))
  {
  }

  lemma SlotRoundTrip(slot: Slot, v: WatchView, rest: string)
    requires QuoteFree(v)
    ensures ParseSlot(slot, SlotJson(slot, v) + rest) == Some((v, rest))
  {
    var p1, p2, p3 := NameMember(slot), TurnsMember(slot), DirectionMember(slot);
    var turns := IntToDecimal(v.turnsPerDay);
    var direction := IntToDecimal(v.turnDirection);
    DecimalHasNoSeparator(v.turnsPerDay);
    DecimalHasNoSeparator(v.turnDirection);
    IntRoundTrip(v.turnsPerDay);
    IntRoundTrip(v.turnDirection);
    var s5 := direction + ['"'] + rest;
    var s4 := p3 + s5;
    var s3 := turns + [','] + s4;
    var s2 := p2 + s3;
    var s1 := v.name + ['"'] + s2;
    SlotParts(p1, v.name, p2, turns, p3, direction, rest);
    assert SlotJson(slot, v) + rest == p1 + s1;
    StripConcat(p1, s1);
    SplitConcat('"', v.name, s2);
    StripConcat(p2, s3);
    SplitConcat(',', turns, s4);
    StripConcat(p3, s5);
    SplitConcat('"', direction, rest);
  }

  lemma DocumentParts(a: string, b: string, c: string)
    ensures "{" + a + "," + b + "," + c + "}" == "{" + (a + ("," + (b + ("," + (c + "}")))))
  {
  }

  /**
   * Reading the document back with the fixed-shape reader, which decodes no escapes, yields the
   * three slots it was written from exactly when no name holds a double quote: names are not
   * escaped, so a quote ends the name's string early.
   */
  lemma JsonRoundTrip(first: WatchView, second: WatchView, third: WatchView)
    ensures ParseWatchesJson(WatchesJsonText(first, second, third)) == Some((first, second, third))
            <==> QuoteFree(first) && QuoteFree(second) && QuoteFree(third)
  {
    if QuoteFree(first) && QuoteFree(second) && QuoteFree(third) {
      var t3 := SlotJson(Third, third) + "}";
      var t2 := SlotJson(Second, second) + ("," + t3);
      var t1 := SlotJson(First, first) + ("," + t2);
      DocumentParts(SlotJson(First, first), SlotJson(Second, second), SlotJson(Third, third));
      StripConcat("{", t1);
      SlotRoundTrip(First, first, "," + t2);
      StripConcat(",", t2);
      SlotRoundTrip(Second, second, "," + t3);
      StripConcat(",", t3);
      SlotRoundTrip(Third, third, "}");
    }
  }

  /**
   * After a reset, whatever the supplier vector held before, the document reads back as the
   * three default slots: "First/Second/Third Watch", 720 turns per day, BOTHDIRECTIONS.
   */
  lemma ResetDocument(ss: Suppliers)
    ensures var r := ResetWatches(ss);
            ParseWatchesJson(WatchesJsonText(View(r, First), View(r, Second), View(r, Third)))
              == Some((DefaultView(First), DefaultView(Second), DefaultView(Third)))
  {
    var r := ResetWatches(ss);
    ResetRestoresDefaults(ss);
    var a, b, c := View(r, First), View(r, Second), View(r, Third);
    assert a == DefaultView(First) && b == DefaultView(Second) && c == DefaultView(Third);
    DefaultsQuoteFree();
    JsonRoundTrip(a, b, c);
  }

  lemma DefaultsQuoteFree()
    ensures QuoteFree(DefaultView(First)) && QuoteFree(DefaultView(Second)) && QuoteFree(DefaultView(Third))
  {
  }
}
