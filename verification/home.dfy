/**
 * The home-screen handler: which delivery slots a customer may pick today and the next
 * day, which fulfilment centre serves the pincode, and the charges shown.
 * Times are integer milliseconds on one local clock; a calendar day is a day number
 * counted from 1970-01-01, which was a Thursday.
 */
module Home {
  import opened Common
  import opened Decimal

  const MillisPerMinute: int := 60000
  const MillisPerDay: int := 86400000

  datatype Weekday = Sunday | Monday | Tuesday | Wednesday | Thursday | Friday | Saturday

  /** The calendar order of the week: Sunday, Monday, ..., Saturday, then Sunday again. */
  function NextWeekday(w: Weekday): Weekday {
    match w
    case Sunday => Monday
    case Monday => Tuesday
    case Tuesday => Wednesday
    case Wednesday => Thursday
    case Thursday => Friday
    case Friday => Saturday
    case Saturday => Sunday
  }

  /** `date.getDay()` named through the Sunday-first table. */
  function WeekdayOf(day: int): (w: Weekday)
    ensures day % 7 == 0 ==> w == Thursday
  {
    match (day + 4) % 7
    case 0 => Sunday
    case 1 => Monday
    case 2 => Tuesday
    case 3 => Wednesday
    case 4 => Thursday
    case 5 => Friday
    case _ => Saturday
  }

  /** The weekday repeats every seven days, and each day is followed by the next weekday. */
  lemma WeekdayPeriodic(day: int)
    ensures WeekdayOf(day + 7) == WeekdayOf(day)
    ensures WeekdayOf(day + 1) == NextWeekday(WeekdayOf(day))
  {
    assert (day + 7 + 4) % 7 == (day + 4) % 7;
    assert (day + 1 + 4) % 7 == ((day + 4) % 7 + 1) % 7;
  }

  /** A slot's "HH:MM" start, already split into numbers. */
  datatype TimeOfDay = TimeOfDay(hour: int, minute: int)

  /** A slot document; `availableOnDays` defaults to every day, `minOrderTimeMinutes` to 60. */
  datatype Slot = Slot(
    id: nat, slotLabel: string, startTime: TimeOfDay, endTime: string,
    availableOnDays: seq<Weekday>, isActive: bool, minOrderTimeMinutes: int)

  /** `new Date(date).setHours(h, m, 0, 0)`: out-of-range hours and minutes carry over. */
  function SlotStart(day: int, t: TimeOfDay): (ms: int)
    ensures 0 <= t.hour < 24 && 0 <= t.minute < 60 ==> day * MillisPerDay <= ms < (day + 1) * MillisPerDay
  {
    day * MillisPerDay + (t.hour * 60 + t.minute) * MillisPerMinute
  }

  /**
   * isSlotValid: the slot is active, offered on that weekday, and starts at least
   * minOrderTimeMinutes after `now` (the exact cutoff still counts).
   */
  function IsSlotValid(slot: Slot, now: int, day: int): (b: bool)
    ensures b ==> slot.isActive
    ensures b ==> WeekdayOf(day) in slot.availableOnDays
    ensures slot.isActive && WeekdayOf(day) in slot.availableOnDays ==>
      (b <==> SlotStart(day, slot.startTime) - now >= slot.minOrderTimeMinutes * MillisPerMinute)
  {
    if !slot.isActive then false
    else if WeekdayOf(day) !in slot.availableOnDays then false
    else if SlotStart(day, slot.startTime) - now < slot.minOrderTimeMinutes * MillisPerMinute then false
    else true
  }

  /** A slot still valid at some instant was valid at every earlier instant of the same day. */
  lemma ValidEarlier(slot: Slot, now: int, earlier: int, day: int)
    requires IsSlotValid(slot, now, day) && earlier <= now
    ensures IsSlotValid(slot, earlier, day)
  {
  }

  /** The cutoff instant itself is accepted; one millisecond later the slot is gone. */
  lemma CutoffBoundary(slot: Slot, day: int)
    requires slot.isActive && WeekdayOf(day) in slot.availableOnDays
    ensures var cutoff := SlotStart(day, slot.startTime) - slot.minOrderTimeMinutes * MillisPerMinute;
      IsSlotValid(slot, cutoff, day) && !IsSlotValid(slot, cutoff + 1, day)
  {
  }

  /** A slot as the response shows it; `date` is the calendar day it was checked for. */
  datatype FormattedSlot = FormattedSlot(
    id: nat, slotLabel: string, startTime: TimeOfDay, endTime: string, available: bool, date: int)

  function FormatSlot(slot: Slot, day: int): (f: FormattedSlot)
    ensures f.available && f.date == day
    ensures f.id == slot.id && f.slotLabel == slot.slotLabel
    ensures f.startTime == slot.startTime && f.endTime == slot.endTime
  {
    FormattedSlot(slot.id, slot.slotLabel, slot.startTime, slot.endTime, true, day)
  }

  /** getValidSlots: `filter(isSlotValid).map(formatSlot)`. */
  function ValidSlots(slots: seq<Slot>, now: int, day: int): (r: seq<FormattedSlot>)
    ensures |r| <= |slots|
    ensures forall f :: f in r ==> f.available && f.date == day
    ensures forall s :: s in slots && IsSlotValid(s, now, day) ==> FormatSlot(s, day) in r
    ensures forall f :: f in r ==> exists s :: s in slots && IsSlotValid(s, now, day) && f == FormatSlot(s, day)
  {
    if slots == [] then []
    else
      var rest := ValidSlots(slots[1..], now, day);
      if IsSlotValid(slots[0], now, day) then [FormatSlot(slots[0], day)] + rest else rest
  }

  /** Filtering preserves input order: the slots of a concatenation are concatenated. */
  lemma {:induction false} ValidSlotsAppend(a: seq<Slot>, b: seq<Slot>, now: int, day: int)
    ensures ValidSlots(a + b, now, day) == ValidSlots(a, now, day) + ValidSlots(b, now, day)
  {
    if a == [] {
      assert a + b == b;
    } else {
      assert (a + b)[0] == a[0];
      assert (a + b)[1..] == a[1..] + b;
      ValidSlotsAppend(a[1..], b, now, day);
    }
  }

  /** The label of the i-th day: "today", then "day2", "day3", ... */
  function DayLabel(i: nat): (l: string)
    ensures i == 0 ==> l == "today"
    ensures i > 0 ==> |l| > 3 && l[..3] == "day" && AllDigits(l[3..]) && ParseDecimal(l[3..]) == i + 1
    ensures i > 0 ==> l == "day" + NatToString(i + 1)
  {
    if i == 0 then "today"
    else
      var digits := NatToString(i + 1);
      ParseNatToString(i + 1);
      assert ("day" + digits)[3..] == digits;
      "day" + digits
  }

  /** Different days never share a label. */
  lemma DayLabelsDistinct(i: nat, j: nat)
    requires i != j
    ensures DayLabel(i) != DayLabel(j)
  {
    if i > 0 && j > 0 {
      assert DayLabel(i)[3..] != DayLabel(j)[3..];
    } else if i == 0 {
      assert DayLabel(j)[..3] == "day";
      assert DayLabel(i)[..3] == "tod";
    } else {
      assert DayLabel(i)[..3] == "day";
      assert DayLabel(j)[..3] == "tod";
    }
  }

  datatype DaySlots = DaySlots(dayLabel: string, slots: seq<FormattedSlot>)

  /** What getSlotsForDays builds for day offset `i`. */
  function DayEntry(slots: seq<Slot>, now: int, i: nat): DaySlots {
    DaySlots(DayLabel(i), ValidSlots(slots, now, now / MillisPerDay + i))
  }

  /**
   * getSlotsForDays: one entry per day offset 0 <= i < days, in order, for the calendar
   * day `i` days after today; a non-positive `days` gives no entries.
   */
  method SlotsForDays(slots: seq<Slot>, now: int, days: int) returns (r: seq<DaySlots>)
    ensures |r| == if days > 0 then days else 0
    ensures forall i :: 0 <= i < |r| ==> r[i] == DayEntry(slots, now, i)
  {
    r := [];
    var i := 0;
    while i < days
      invariant 0 <= i <= if days > 0 then days else 0
      invariant |r| == i
      invariant forall k :: 0 <= k < i ==> r[k] == DayEntry(slots, now, k)
    {
      var date := now / MillisPerDay + i;
      var entry := DaySlots(DayLabel(i), ValidSlots(slots, now, date));
      assert entry == DayEntry(slots, now, i);
      r := r + [entry];
      i := i + 1;
    }
  }

  // ---------------------------------------------------------------------------
  // Branch and charges
  // ---------------------------------------------------------------------------

  datatype HomeBranch = HomeBranch(id: nat, isActive: Option<bool>, codAvailable: Option<bool>)

  /** `branches.find(b => b.isActive !== false)`: only an explicit false disqualifies. */
  function FirstActiveBranch(branches: seq<HomeBranch>): (r: Option<nat>)
    ensures r.Some? ==> r.value < |branches| && branches[r.value].isActive != Some(false)
    ensures r.Some? ==> forall j :: 0 <= j < r.value ==> branches[j].isActive == Some(false)
    ensures r.None? <==> forall j :: 0 <= j < |branches| ==> branches[j].isActive == Some(false)
  {
    if branches == [] then None
    else if branches[0].isActive != Some(false) then Some(0)
    else
      var r := FirstActiveBranch(branches[1..]);
      if r.Some? then Some(r.value + 1) else None
  }

  /** A charge field as stored: missing, a number, or a list of tiers. */
  datatype ChargeValue = Missing | Num(amount: int) | Tiers(amounts: seq<int>)

  /** `Array.isArray(x) ? x : x || fallback` */
  function ChargeOrDefault(c: ChargeValue, fallback: int): (r: ChargeValue)
    ensures c.Tiers? ==> r == c
    ensures c.Num? && c.amount != 0 ==> r == c
    ensures (c.Missing? || c == Num(0)) ==> r == Num(fallback)
  {
    match c
    case Tiers(_) => c
    case Num(n) => if n != 0 then c else Num(fallback)
    case Missing => Num(fallback)
  }

  const DefaultDeliveryCharge: int := 0
  const DefaultHandlingCharge: int := 5

  /** `codAvailable || true`: whatever the branch stores, the response says true. */
  function CodAvailable(b: HomeBranch): (r: bool)
    ensures r
  {
    (b.codAvailable.Some? && b.codAvailable.value) || true
  }

  /** An active service area with its populated branches and slots. */
  datatype ServiceArea = ServiceArea(
    branches: seq<HomeBranch>, slots: seq<Slot>, deliveryCharges: ChargeValue, handlingCharges: ChargeValue)

  datatype HomeView = HomeView(
    branch: HomeBranch, slotsByDay: seq<DaySlots>,
    deliveryCharges: ChargeValue, handlingCharges: ChargeValue, codAvailable: bool)

  datatype HomeError = PincodeRequired | NoServiceArea | NoActiveBranch

  /** The status each refusal is sent with: 400 for a missing pincode, 404 otherwise. */
  function HomeHttpStatus(e: HomeError): (code: int)
    ensures code == 400 <==> e == PincodeRequired
    ensures code == 404 <==> e != PincodeRequired
  {
    if e == PincodeRequired then 400 else 404
  }

  /**
   * home: a missing pincode is a 400; no active area, or one without branches, a 404;
   * otherwise the first branch not switched off serves, with two days of slots.
   */
  method Home(pincode: Option<string>, areas: map<string, ServiceArea>, now: int)
    returns (r: Result<HomeView, HomeError>)
    ensures !TruthyString(pincode) <==> r == Err(PincodeRequired)
    ensures TruthyString(pincode) && (pincode.value !in areas || areas[pincode.value].branches == []) ==> r == Err(NoServiceArea)
    ensures TruthyString(pincode) && pincode.value in areas ==>
      var area := areas[pincode.value];
      var fc := FirstActiveBranch(area.branches);
      && (area.branches != [] && fc.None? ==> r == Err(NoActiveBranch))
      && (r.Ok? <==> fc.Some?)
      && (r.Ok? ==>
            && r.value.branch == area.branches[fc.value]
            && |r.value.slotsByDay| == 2
            && r.value.slotsByDay[0] == DayEntry(area.slots, now, 0)
            && r.value.slotsByDay[1] == DayEntry(area.slots, now, 1)
            && r.value.deliveryCharges == ChargeOrDefault(area.deliveryCharges, DefaultDeliveryCharge)
            && r.value.handlingCharges == ChargeOrDefault(area.handlingCharges, DefaultHandlingCharge)
            && r.value.codAvailable)
  {
    if !TruthyString(pincode) {
      return Err(PincodeRequired);
    }
    if pincode.value !in areas || areas[pincode.value].branches == [] {
      return Err(NoServiceArea);
    }
    var area := areas[pincode.value];
    var fc := FirstActiveBranch(area.branches);
    if fc.None? {
      return Err(NoActiveBranch);
    }
    var branch := area.branches[fc.value];
    var slotsByDay := SlotsForDays(area.slots, now, 2);
    r := Ok(HomeView(branch, slotsByDay,
                     ChargeOrDefault(area.deliveryCharges, DefaultDeliveryCharge),
                     ChargeOrDefault(area.handlingCharges, DefaultHandlingCharge),
                     CodAvailable(branch)));
  }
}
