/**
 The booking pricing rule of the checkout form: a booking's duration, start
 day and start hour, guest count and add-on flags give an itemised breakdown
 (base rate, extra-guest fee, cleaning fee, selected add-ons) and a total.
 Money and hours are exact reals; the date parsing that yields the day of
 week, the start hour and the millisecond instants is outside the model.
 */
module Pricing {

  /** A booking after its dates are parsed: start and end instants in
      milliseconds, the local day of week of the start (0 = Sunday,
      5 = Friday, 6 = Saturday), the local start hour, the guest count and
      the three add-on check boxes. */
  datatype Booking = Booking(
    startMs: int,
    endMs: int,
    dayOfWeek: int,
    startHour: int,
    guests: int,
    extraRoom: bool,
    photographer: bool,
    allInclusive: bool)

  /** The itemised price: base-rate and guest-fee subtotals (already
      multiplied by the duration), the flat cleaning fee, and one entry per
      selected add-on. */
  datatype Breakdown = Breakdown(
    baseRate: real,
    guestFee: real,
    cleaningFee: real,
    addOns: map<string, real>)

  datatype Quote = Quote(totalCost: real, breakdown: Breakdown)

  const MsPerHour: int := 3600000

  const ExtraRoom: string := "extraRoom"
  const Photographer: string := "photographer"
  const AllInclusive: string := "allInclusive"

  function Abs(x: int): nat
  {
    if x < 0 then -x else x
  }

  /** Elapsed hours between two instants, whichever comes first. */
  function DurationHours(startMs: int, endMs: int): (hours: real)
    ensures hours >= 0.0
    ensures hours * MsPerHour as real == Abs(endMs - startMs) as real
  {
    Abs(endMs - startMs) as real / MsPerHour as real
  }

  lemma DurationSymmetric(startMs: int, endMs: int)
    ensures DurationHours(startMs, endMs) == DurationHours(endMs, startMs)
  {
  }

  // ---------------------------------------------------------------------
  // The rate tables, written as the business rule states them.
  // ---------------------------------------------------------------------

  predicate IsFridayOrSaturday(dayOfWeek: int)
  {
    dayOfWeek == 5 || dayOfWeek == 6
  }

  /** Hourly base rate: 100 outside Friday and Saturday; on those days
      110 before 17:00, 120 from 17:00 to before 21:00, 150 from 21:00. */
  function HourlyRate(dayOfWeek: int, startHour: int): real
  {
    if !IsFridayOrSaturday(dayOfWeek) then 100.0
    else if startHour < 17 then 110.0
    else if startHour < 21 then 120.0
    else 150.0
  }

  /** Hourly extra-guest fee: nothing up to 19 guests, 10 for 20 to 29,
      20 from 30 on. */
  function GuestFeeRate(guests: int): real
  {
    if guests <= 19 then 0.0
    else if guests <= 29 then 10.0
    else 20.0
  }

  /** Flat cleaning fee: 50 up to 20 guests, 125 above. */
  function CleaningFee(guests: int): real
  {
    if guests <= 20 then 50.0 else 125.0
  }

  predicate Selected(b: Booking, name: string)
  {
    (name == ExtraRoom && b.extraRoom)
    || (name == Photographer && b.photographer)
    || (name == AllInclusive && b.allInclusive)
  }

  /** Cost of one add-on: the extra room and the photographer are charged
      per hour, the all-inclusive package is flat. */
  function AddOnCost(name: string, hours: real): real
  {
    if name == ExtraRoom then 50.0 * hours
    else if name == Photographer then 100.0 * hours
    else 350.0
  }

  /** The add-on entries of a booking: exactly the selected ones. */
  function SelectedAddOns(b: Booking): map<string, real>
  {
    var hours := DurationHours(b.startMs, b.endMs);
    map name | name in {ExtraRoom, Photographer, AllInclusive} && Selected(b, name)
      :: AddOnCost(name, hours)
  }

  /** The breakdown a booking should receive. */
  function BreakdownFor(b: Booking): Breakdown
  {
    var hours := DurationHours(b.startMs, b.endMs);
    Breakdown(
      HourlyRate(b.dayOfWeek, b.startHour) * hours,
      GuestFeeRate(b.guests) * hours,
      CleaningFee(b.guests),
      SelectedAddOns(b))
  }

  // ---------------------------------------------------------------------
  // Summing the add-on entries.
  // ---------------------------------------------------------------------

  /** Sum of the values of a map, in no particular key order. */
  ghost function SumValues(m: map<string, real>): real
    decreases m.Keys
  {
    if m == map[] then 0.0
    else
      var k :| k in m;
      m[k] + SumValues(m - {k})
  }

  /** A total rebuilt from a breakdown's fields. */
  ghost function ItemisedTotal(br: Breakdown): real
  {
    br.baseRate + br.guestFee + br.cleaningFee + SumValues(br.addOns)
  }

  /** Any entry can be taken out of the sum first. */
  lemma {:induction false} SumRemove(m: map<string, real>, j: string)
    requires j in m
    ensures SumValues(m) == m[j] + SumValues(m - {j})
    decreases m.Keys
  {
    var k :| k in m && SumValues(m) == m[k] + SumValues(m - {k});
    if k != j {
      SumRemove(m - {k}, j);
      SumRemove(m - {j}, k);
      assert (m - {k}) - {j} == (m - {j}) - {k};
    }
  }

  /** Adding a fresh key adds its value to the sum. */
  lemma SumInsert(m: map<string, real>, k: string, v: real)
    requires k !in m
    ensures SumValues(m[k := v]) == SumValues(m) + v
  {
    SumRemove(m[k := v], k);
    assert m[k := v] - {k} == m;
  }

  // ---------------------------------------------------------------------
  // The pricing step as the checkout form performs it.
  // ---------------------------------------------------------------------

  /** Computes the total and breakdown step by step: the base rate is
      reassigned inside the Friday/Saturday branch (whose Sunday disjunct
      can never decide anything), the add-on fees are accumulated while
      each selected add-on is inserted into the breakdown. The result is
      the tabled breakdown, and the total is exactly what the breakdown
      adds up to. */
  method CalculatePrice(b: Booking) returns (q: Quote)
    ensures q.breakdown == BreakdownFor(b)
    ensures q.totalCost == ItemisedTotal(q.breakdown)
  {
    var durationHours := Abs(b.endMs - b.startMs) as real / MsPerHour as real;

    var baseRate := 100.0;
    var dayOfWeek := b.dayOfWeek;
    var startHour := b.startHour;

    if dayOfWeek == 5 || dayOfWeek == 6 {
      if startHour < 17 {
        baseRate := 110.0;
      } else if startHour >= 17 && startHour < 21 {
        baseRate := 120.0;
      } else if startHour >= 21 || dayOfWeek == 0 {
        baseRate := 150.0;
      }
    }

    assert baseRate == HourlyRate(b.dayOfWeek, b.startHour);

    var extraGuestFee := if b.guests > 19 then (if b.guests <= 29 then 10.0 else 20.0) else 0.0;
    var cleaningFee := if b.guests > 20 then 125.0 else 50.0;

    assert durationHours == DurationHours(b.startMs, b.endMs);
    var addOnFees := 0.0;
    var addOns: map<string, real> := map[];

    if b.extraRoom {
      var extraRoomCost := 50.0 * durationHours;
      addOnFees := addOnFees + extraRoomCost;
      SumInsert(addOns, ExtraRoom, extraRoomCost);
      addOns := addOns[ExtraRoom := extraRoomCost];
    }
    if b.photographer {
      var photographerCost := 100.0 * durationHours;
      addOnFees := addOnFees + photographerCost;
      SumInsert(addOns, Photographer, photographerCost);
      addOns := addOns[Photographer := photographerCost];
    }
    if b.allInclusive {
      var allInclusiveCost := 350.0;
      addOnFees := addOnFees + allInclusiveCost;
      SumInsert(addOns, AllInclusive, allInclusiveCost);
      addOns := addOns[AllInclusive := allInclusiveCost];
    }
    assert addOnFees == SumValues(addOns);
    SelectedAddOnsByInsertion(b);

    var breakdown := Breakdown(baseRate * durationHours, extraGuestFee * durationHours, cleaningFee, addOns);
    var totalCost := breakdown.baseRate + breakdown.guestFee + breakdown.cleaningFee + addOnFees;
    q := Quote(totalCost, breakdown);
  }

  // ---------------------------------------------------------------------
  // Properties of the pricing rule.
  // ---------------------------------------------------------------------

  /** Exactly one tier applies: 100 on any day but Friday and Saturday
      (Sunday included), otherwise 110, 120 or 150 by start hour. */
  lemma RateTiers(dayOfWeek: int, startHour: int)
    ensures HourlyRate(dayOfWeek, startHour) in {100.0, 110.0, 120.0, 150.0}
    ensures dayOfWeek != 5 && dayOfWeek != 6 ==> HourlyRate(dayOfWeek, startHour) == 100.0
    ensures dayOfWeek == 0 ==> HourlyRate(dayOfWeek, startHour) == 100.0
    ensures IsFridayOrSaturday(dayOfWeek) ==>
      (HourlyRate(dayOfWeek, startHour) == 110.0 <==> startHour < 17)
      && (HourlyRate(dayOfWeek, startHour) == 120.0 <==> 17 <= startHour < 21)
      && (HourlyRate(dayOfWeek, startHour) == 150.0 <==> startHour >= 21)
  {
  }

  /** The guest-fee threshold (above 19) sits one below the cleaning-fee
      threshold (above 20): twenty guests is the one count that pays the
      hourly guest fee but the low cleaning fee. */
  lemma GuestThresholds(guests: int)
    ensures GuestFeeRate(guests) == 0.0 <==> guests <= 19
    ensures GuestFeeRate(guests) == 10.0 <==> 20 <= guests <= 29
    ensures GuestFeeRate(guests) == 20.0 <==> guests >= 30
    ensures CleaningFee(guests) == 50.0 <==> guests <= 20
    ensures CleaningFee(guests) == 125.0 <==> guests > 20
    ensures GuestFeeRate(guests) > 0.0 && CleaningFee(guests) == 50.0 <==> guests == 20
  {
  }

  /** The cleaning fee does not depend on the duration. */
  lemma CleaningFeeIgnoresDuration(b: Booking, startMs: int, endMs: int)
    ensures BreakdownFor(b).cleaningFee == BreakdownFor(b.(startMs := startMs, endMs := endMs)).cleaningFee
  {
  }

  /** An add-on has an entry if and only if its box is ticked; the extra
      room costs 50 and the photographer 100 per hour, the all-inclusive
      package 350 whatever the duration; no other key appears. */
  lemma AddOnEntries(b: Booking)
    ensures var m, hours := BreakdownFor(b).addOns, DurationHours(b.startMs, b.endMs);
      m.Keys <= {ExtraRoom, Photographer, AllInclusive}
      && (ExtraRoom in m <==> b.extraRoom)
      && (Photographer in m <==> b.photographer)
      && (AllInclusive in m <==> b.allInclusive)
      && (ExtraRoom in m ==> m[ExtraRoom] == 50.0 * hours)
      && (Photographer in m ==> m[Photographer] == 100.0 * hours)
      && (AllInclusive in m ==> m[AllInclusive] == 350.0)
  {
  }

  function Charge(selected: bool, amount: real): real
  {
    if selected then amount else 0.0
  }

  function InsertIf(m: map<string, real>, selected: bool, name: string, cost: real): map<string, real>
  {
    if selected then m[name := cost] else m
  }

  /** The add-on entries are those the form inserts, each only when
      selected; the map itself keeps no key order. */
  lemma SelectedAddOnsByInsertion(b: Booking)
    ensures var hours := DurationHours(b.startMs, b.endMs);
      SelectedAddOns(b)
      == InsertIf(InsertIf(InsertIf(map[], b.extraRoom, ExtraRoom, 50.0 * hours),
                           b.photographer, Photographer, 100.0 * hours),
                  b.allInclusive, AllInclusive, 350.0)
  {
  }

  /** The selected add-on entries add up to their per-hour charges times
      the duration plus the flat package price. */
  lemma AddOnSum(b: Booking)
    ensures var hours := DurationHours(b.startMs, b.endMs);
      SumValues(SelectedAddOns(b))
      == Charge(b.extraRoom, 50.0 * hours) + Charge(b.photographer, 100.0 * hours)
         + Charge(b.allInclusive, 350.0)
  {
    var hours := DurationHours(b.startMs, b.endMs);
    var m0: map<string, real> := map[];
    var m1 := InsertIf(m0, b.extraRoom, ExtraRoom, 50.0 * hours);
    var m2 := InsertIf(m1, b.photographer, Photographer, 100.0 * hours);
    SelectedAddOnsByInsertion(b);
    assert SumValues(m0) == 0.0;
    SumInsertIf(m0, b.extraRoom, ExtraRoom, 50.0 * hours);
    SumInsertIf(m1, b.photographer, Photographer, 100.0 * hours);
    SumInsertIf(m2, b.allInclusive, AllInclusive, 350.0);
  }

  lemma SumInsertIf(m: map<string, real>, selected: bool, name: string, cost: real)
    requires name !in m
    ensures SumValues(InsertIf(m, selected, name, cost)) == SumValues(m) + Charge(selected, cost)
  {
    if selected {
      SumInsert(m, name, cost);
    }
  }

  /** The total in closed form: the hourly base rate and guest fee times
      the duration, the cleaning fee, and the selected add-on charges. */
  lemma TotalFormula(b: Booking)
    ensures var hours := DurationHours(b.startMs, b.endMs);
      ItemisedTotal(BreakdownFor(b))
      == HourlyRate(b.dayOfWeek, b.startHour) * hours + GuestFeeRate(b.guests) * hours
         + CleaningFee(b.guests)
         + Charge(b.extraRoom, 50.0 * hours) + Charge(b.photographer, 100.0 * hours)
         + Charge(b.allInclusive, 350.0)
  {
    AddOnSum(b);
  }

  /** Every confirmed total covers at least the cleaning fee, hence is
      at least 50 and positive. */
  lemma TotalCoversCleaningFee(b: Booking)
    ensures ItemisedTotal(BreakdownFor(b)) >= BreakdownFor(b).cleaningFee >= 50.0
    ensures ItemisedTotal(BreakdownFor(b)) > 0.0
  {
    AddOnSum(b);
  }

  /** Friday 2024-06-07 22:00 to 02:00 the next day (UTC instants):
      four hours at the late-night rate of 150, a base subtotal of 600. */
  lemma FridayLateNightExample()
    ensures var b := Booking(1717797600000, 1717812000000, 5, 22, 10, false, false, false);
      DurationHours(b.startMs, b.endMs) == 4.0 && BreakdownFor(b).baseRate == 600.0
  {
  }

  /** Tuesday 10:00, three hours, 25 guests, no add-ons: base 300, guest
      fee 30, cleaning 125, total 455. */
  lemma TuesdayExample()
    ensures var b := Booking(0, 3 * MsPerHour, 2, 10, 25, false, false, false);
      BreakdownFor(b) == Breakdown(300.0, 30.0, 125.0, map[])
      && ItemisedTotal(BreakdownFor(b)) == 455.0
  {
  }

  // ---------------------------------------------------------------------
  // The form's price state.
  // ---------------------------------------------------------------------

  /** The checkout form's state: the displayed total and breakdown. */
  class Checkout {
    var totalPrice: real
    var priceBreakdown: Breakdown

    /** Before any confirm: a zero total and an empty breakdown. */
    constructor ()
      ensures totalPrice == 0.0
      ensures priceBreakdown == Breakdown(0.0, 0.0, 0.0, map[])
      ensures !PayButtonShown()
    {
      totalPrice := 0.0;
      priceBreakdown := Breakdown(0.0, 0.0, 0.0, map[]);
    }

    /** The payment element and the pay button are rendered only for a
        positive total. */
    predicate PayButtonShown()
      reads this
    {
      totalPrice > 0.0
    }

    /** Confirming the details replaces the total and the breakdown with
        those of the given booking alone; nothing from an earlier confirm
        survives, and the pay button is then shown. */
    method ConfirmDetails(b: Booking)
      modifies this
      ensures priceBreakdown == BreakdownFor(b)
      ensures totalPrice == ItemisedTotal(priceBreakdown)
      ensures PayButtonShown()
    {
      var q := CalculatePrice(b);
      TotalCoversCleaningFee(b);
      totalPrice := q.totalCost;
      priceBreakdown := q.breakdown;
    }
  }
}
