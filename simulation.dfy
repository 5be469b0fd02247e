/** `genererDonneesSimulees`: the seven-day placeholder forecast served when
    the provider fails. The clock and `Math.random` are inputs here: the
    calendar facts of today plus `i` days and the three draws of day `i`. */
module Simulation {
  import opened Conditions
  import opened Forecast

  /** `Date.prototype.getDay()`: 0 is Sunday, 6 is Saturday. */
  type Weekday = d: int | 0 <= d < 7

  /** `Math.floor(Math.random() * 10)`. */
  type Digit = d: int | 0 <= d < 10

  /** `Math.floor(Math.random() * conditions.length)` for the four conditions. */
  type ConditionPick = k: int | 0 <= k < 4

  /** The calendar facts of one day: its ISO date, its weekday, its day of
      the month as rendered, and its French month name. */
  datatype CalendarDay = CalendarDay(iso: string, weekday: Weekday, dayOfMonth: string, monthName: string)

  /** The three random draws of one day, in the order the loop makes them. */
  datatype Draw = Draw(condition: ConditionPick, min: Digit, max: Digit)

  /** The `jours` array of the generator, which starts on Monday. */
  const Jours: seq<string> := ["Lundi", "Mardi", "Mercredi", "Jeudi", "Vendredi", "Samedi", "Dimanche"]

  /** The French name of each `getDay()` value, Sunday first. */
  const NamesByGetDay: seq<string> := ["Dimanche", "Lundi", "Mardi", "Mercredi", "Jeudi", "Vendredi", "Samedi"]

  /** The four conditions the generator picks from. */
  const SimulatedConditions: seq<Condition> := [
    Condition("Clear", "ensoleillé", "01d"),
    Condition("Clouds", "partiellement nuageux", "02d"),
    Condition("Clouds", "nuageux", "03d"),
    Condition("Rain", "pluvieux", "10d")
  ]

  /** The weekday label as the generator computes it, `jours[date.getDay()]`:
      the name of the day after the one `getDay()` reports. */
  function JourAsWritten(d: Weekday): (r: string)
    ensures r == NamesByGetDay[(d + 1) % 7]
  {
    Jours[d]
  }

  /** The label is never the right one: a Sunday is shown as "Lundi", a
      Saturday as "Dimanche". */
  lemma JourAsWrittenIsNextDay(d: Weekday)
    ensures JourAsWritten(d) != NamesByGetDay[d]
    ensures JourAsWritten(0) == "Lundi" && JourAsWritten(6) == "Dimanche"
  {
  }

  /** The weekday label with `getDay()`'s Sunday-first numbering shifted onto
      the Monday-first `jours` array. */
  function JourLabel(d: Weekday): (r: string)
    ensures r == NamesByGetDay[d]
  {
    Jours[(d + 6) % 7]
  }

  /** The readable date of a placeholder day, opening with `heading`. */
  function DateLisible(heading: string, cal: CalendarDay): (r: string)
    ensures heading + " " <= r
  {
    var opening := heading + " ";
    assert opening <= opening + cal.dayOfMonth + " " + cal.monthName;
    opening + cal.dayOfMonth + " " + cal.monthName
  }

  /** Day `i` of the placeholder forecast, as the generator builds it: its
      readable date opens with the name of the following weekday. */
  function SimulatedDay(cal: CalendarDay, draw: Draw, nomVille: string): (r: DayForecast)
    ensures r.ville == nomVille && r.date == cal.iso
    ensures 25 <= r.temperature.min <= 34 && 35 <= r.temperature.max <= 44
    ensures r.condition in SimulatedConditions
    ensures NamesByGetDay[(cal.weekday + 1) % 7] + " " <= r.dateLisible
  {
    DayForecast(
      cal.iso,
      DateLisible(JourAsWritten(cal.weekday), cal),
      Temperature(draw.min + 25, draw.max + 35),
      SimulatedConditions[draw.condition],
      nomVille)
  }

  /** The same day with the corrected label: it differs from the generator's
      only in its readable date, which opens with the day's own name. */
  function CorrectedSimulatedDay(cal: CalendarDay, draw: Draw, nomVille: string): (r: DayForecast)
    ensures NamesByGetDay[cal.weekday] + " " <= r.dateLisible
    ensures r.(dateLisible := "") == SimulatedDay(cal, draw, nomVille).(dateLisible := "")
  {
    SimulatedDay(cal, draw, nomVille).(dateLisible := DateLisible(JourLabel(cal.weekday), cal))
  }

  /** The placeholder forecast: seven days from today, each stamped with the
      city's name, a minimum between 25 and 34 and a maximum between 35 and
      44 (so always above the minimum), one of the four conditions, and, as
      the first word of its readable date, the name of the following weekday. */
  function Simulated(nomVille: string, calendar: nat -> CalendarDay, random: nat -> Draw): (r: seq<DayForecast>)
    ensures |r| == 7
    ensures forall i :: 0 <= i < |r| ==>
      && r[i].ville == nomVille
      && r[i].date == calendar(i).iso
      && 25 <= r[i].temperature.min <= 34
      && 35 <= r[i].temperature.max <= 44
      && r[i].temperature.min < r[i].temperature.max
      && r[i].condition in SimulatedConditions
      && NamesByGetDay[(calendar(i).weekday + 1) % 7] + " " <= r[i].dateLisible
  {
    var r := seq(7, i requires 0 <= i => SimulatedDay(calendar(i), random(i), nomVille));
    assert forall i :: 0 <= i < 7 ==> r[i] == SimulatedDay(calendar(i), random(i), nomVille);
    r
  }

  /** The generator's `for` loop, pushing one day per iteration. */
  method GenererDonneesSimulees(nomVille: string, calendar: nat -> CalendarDay, random: nat -> Draw)
    returns (previsions: seq<DayForecast>)
    ensures previsions == Simulated(nomVille, calendar, random)
  {
    previsions := [];
    for i := 0 to 7
      invariant |previsions| == i
      invariant forall k :: 0 <= k < i ==> previsions[k] == SimulatedDay(calendar(k), random(k), nomVille)
    {
      var date := calendar(i);
      var draw := random(i);
      var condition := SimulatedConditions[draw.condition];
      previsions := previsions + [DayForecast(
        date.iso,
        DateLisible(Jours[date.weekday], date),
        Temperature(draw.min + 25, draw.max + 35),
        condition,
        nomVille)];
    }
  }
}
