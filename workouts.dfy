/** The workout entities: a generic workout and its running and cycling
    specialisations, held as one datatype tagged by its `type` string. */
module Workouts {

  import opened Wrappers
  import Text

  /** What `getMonth()` returns: an index into the month-name table. */
  type Month = m: int | 0 <= m < 12

  /** What `getDate()` returns: the day of the month. */
  type Day = d: int | 1 <= d <= 31 witness 1

  /** The part of a workout's creation date the model keeps. */
  datatype Date = Date(month: Month, day: Day)

  const MonthNames: seq<string> :=
    ["January", "February", "March", "April", "May", "June", "July",
     "August", "September", "October", "November", "December"]

  function MonthName(m: Month): string {
    MonthNames[m]
  }

  /** The three values the `type` field takes. */
  const PlainTag: string := "workout"
  const RunningTag: string := "Running"
  const CyclingTag: string := "Cycling"

  /** The fields only one specialisation has. None stands for a field that
      holds `undefined` (an instance built without arguments) and, for `pace`
      and `speed`, for a division with no finite value (NaN or an infinity). */
  datatype Variant =
    | Generic
    | RunningData(name: Option<string>, cadence: Option<real>, pace: Option<real>)
    | CyclingData(name: Option<string>, elevationGain: Option<real>, speed: Option<real>)

  datatype Workout = Workout(
    id: string,
    distance: real,
    duration: real,
    coords: seq<real>,
    date: Date,
    tag: string,
    clicks: nat,
    description: string,
    variant: Variant)

  /** `getDescription`: the type, " on ", the month name and the day. */
  function Describe(tag: string, date: Date): (s: string)
    ensures |s| > |tag| + 4 && s[..|tag| + 4] == tag + " on "
  {
    tag + " on " + MonthName(date.month) + " " + Text.NatToString(date.day)
  }

  /** `calcPace`: minutes per kilometre. */
  function PaceOf(distance: real, duration: real): (p: Option<real>)
    ensures p.Some? <==> distance != 0.0
    ensures p.Some? ==> p.value * distance == duration
  {
    if distance == 0.0 then None else Some(duration / distance)
  }

  /** `calcSpeed`: kilometres per hour from minutes. */
  function SpeedOf(distance: real, duration: real): (v: Option<real>)
    ensures v.Some? <==> duration != 0.0
    ensures v.Some? ==> v.value * duration == 60.0 * distance
  {
    if duration == 0.0 then None else Some(distance / (duration / 60.0))
  }

  /** The consistency every constructor establishes: the description shows
      the final type and the date, the type names the variant, and the
      stored metric agrees with distance and duration. */
  predicate WellFormed(w: Workout) {
    && w.description == Describe(w.tag, w.date)
    && match w.variant
       case Generic => w.tag == PlainTag
       case RunningData(_, _, pace) => w.tag == RunningTag && pace == PaceOf(w.distance, w.duration)
       case CyclingData(_, _, speed) => w.tag == CyclingTag && speed == SpeedOf(w.distance, w.duration)
  }

  /** `new Workout(distance, duration, coords)`, with the clock's id and date
      passed in. */
  function NewPlain(distance: real, duration: real, coords: seq<real>, id: string, date: Date): (w: Workout)
    ensures w.id == id && w.distance == distance && w.duration == duration
    ensures w.coords == coords && w.date == date
    ensures w.tag == PlainTag && w.clicks == 0 && w.variant == Generic
    ensures WellFormed(w)
  {
    var fields := Workout(id, distance, duration, coords, date, PlainTag, 0, "", Generic);
    fields.(description := Describe(fields.tag, fields.date))
  }

  /** `new Running(distance, duration, coords, name, cadence)`: the base
      constructor, then the type is overwritten, the description recomputed
      and the pace calculated. */
  function NewRunning(distance: real, duration: real, coords: seq<real>, name: string, cadence: real,
                      id: string, date: Date): (w: Workout)
    ensures w.id == id && w.distance == distance && w.duration == duration
    ensures w.coords == coords && w.date == date
    ensures w.tag == RunningTag && w.clicks == 0
    ensures w.description == Describe(RunningTag, date)
    ensures w.variant.RunningData? && w.variant.name == Some(name) && w.variant.cadence == Some(cadence)
    ensures w.variant.pace.Some? <==> distance != 0.0
    ensures w.variant.pace.Some? ==> w.variant.pace.value * distance == duration
    ensures WellFormed(w)
  {
    var base := NewPlain(distance, duration, coords, id, date);
    var typed := base.(tag := RunningTag, variant := RunningData(Some(name), Some(cadence), None));
    var described := typed.(description := Describe(typed.tag, typed.date));
    described.(variant := described.variant.(pace := PaceOf(described.distance, described.duration)))
  }

  /** `new Cycling(distance, duration, coords, name, elevationGain)`. */
  function NewCycling(distance: real, duration: real, coords: seq<real>, name: string, elevationGain: real,
                      id: string, date: Date): (w: Workout)
    ensures w.id == id && w.distance == distance && w.duration == duration
    ensures w.coords == coords && w.date == date
    ensures w.tag == CyclingTag && w.clicks == 0
    ensures w.description == Describe(CyclingTag, date)
    ensures w.variant.CyclingData? && w.variant.name == Some(name) && w.variant.elevationGain == Some(elevationGain)
    ensures w.variant.speed.Some? <==> duration != 0.0
    ensures w.variant.speed.Some? ==> w.variant.speed.value * duration == 60.0 * distance
    ensures WellFormed(w)
  {
    var base := NewPlain(distance, duration, coords, id, date);
    var typed := base.(tag := CyclingTag, variant := CyclingData(Some(name), Some(elevationGain), None));
    var described := typed.(description := Describe(typed.tag, typed.date));
    described.(variant := described.variant.(speed := SpeedOf(described.distance, described.duration)))
  }

  /** `click()`: one more click, nothing else changes. */
  function Click(w: Workout): (r: Workout)
    ensures r.clicks == w.clicks + 1
    ensures r.(clicks := w.clicks) == w
    ensures WellFormed(w) ==> WellFormed(r)
  {
    w.(clicks := w.clicks + 1)
  }

  /** Pace is positive when distance and duration are, which the form
      validation itself never checks. */
  lemma PacePositive(distance: real, duration: real)
    requires distance > 0.0 && duration > 0.0
    ensures PaceOf(distance, duration).Some? && PaceOf(distance, duration).value > 0.0
  {
  }

  lemma SpeedPositive(distance: real, duration: real)
    requires distance > 0.0 && duration > 0.0
    ensures SpeedOf(distance, duration).Some? && SpeedOf(distance, duration).value > 0.0
  {
  }

  lemma MonthNamesHaveNoSpace(m: Month)
    ensures forall i :: 0 <= i < |MonthName(m)| ==> MonthName(m)[i] != ' '
  {
  }

  lemma MonthNameInjective(m1: Month, m2: Month)
    requires MonthName(m1) == MonthName(m2)
    ensures m1 == m2
  {
  }

  /** Splitting at the first space: text before it that has no space is
      determined, and so is the rest. */
  lemma SplitAtSpace(a1: string, b1: string, a2: string, b2: string)
    requires forall i :: 0 <= i < |a1| ==> a1[i] != ' '
    requires forall i :: 0 <= i < |a2| ==> a2[i] != ' '
    requires a1 + " " + b1 == a2 + " " + b2
    ensures a1 == a2 && b1 == b2
  {
    var s1, s2 := a1 + " " + b1, a2 + " " + b2;
    assert s1[|a1|] == ' ' && s2[|a2|] == ' ';
    assert forall i :: 0 <= i < |a1| ==> s1[i] == a1[i];
    assert forall i :: 0 <= i < |a2| ==> s2[i] == a2[i];
    assert |a1| == |a2|;
    assert a1 == s1[..|a1|] && a2 == s2[..|a2|];
    assert b1 == s1[|a1| + 1..] && b2 == s2[|a2| + 1..];
  }

  /** Two descriptions of the same type are equal only for the same month
      and day: the description identifies the date it was built from. */
  lemma DescribeInjective(tag: string, d1: Date, d2: Date)
    requires Describe(tag, d1) == Describe(tag, d2)
    ensures d1 == d2
  {
    var prefix := tag + " on ";
    var m1, m2 := MonthName(d1.month), MonthName(d2.month);
    var n1, n2 := Text.NatToString(d1.day), Text.NatToString(d2.day);
    var s1, s2 := m1 + " " + n1, m2 + " " + n2;
    assert Describe(tag, d1) == prefix + s1;
    assert Describe(tag, d2) == prefix + s2;
    assert s1 == (prefix + s1)[|prefix|..];
    assert s2 == (prefix + s2)[|prefix|..];
    MonthNamesHaveNoSpace(d1.month);
    MonthNamesHaveNoSpace(d2.month);
    SplitAtSpace(m1, n1, m2, n2);
    MonthNameInjective(d1.month, d2.month);
    Text.NatToStringInjective(d1.day, d2.day);
  }

  /** Scenario: a 5 km run of 30 minutes has a pace of 6 minutes per km. */
  lemma RunningScenario(id: string, date: Date)
    ensures NewRunning(5.0, 30.0, [10.0, 20.0], "test", 150.0, id, date).variant.pace == Some(6.0)
    ensures NewRunning(5.0, 30.0, [10.0, 20.0], "test", 150.0, id, date).tag == RunningTag
  {
  }

  /** Scenario: a 20 km ride of 60 minutes has a speed of 20 km/h. */
  lemma CyclingScenario(id: string, date: Date)
    ensures NewCycling(20.0, 60.0, [1.0, 1.0], "test", 100.0, id, date).variant.speed == Some(20.0)
  {
  }
}
