# Mapty workouts: a Dafny model of the workout domain and its collection

Mapty logs runs and rides that the user places on a map. This project models
the part of `script.js` that has state and rules: the workout entities and
the application object's list of workouts.

- **Entities** (`workouts.dfy`, module `Workouts`). `Workout`, `Running` and
  `Cycling` are one datatype. Its `tag` field holds the JavaScript `type`
  string (`"workout"`, `"Running"`, `"Cycling"`). A `Variant` holds the
  fields only one subclass has: name, cadence and pace, or name,
  elevationGain and speed. The constructors are functions that follow the
  source's steps: base fields first, then the new type, then the description
  is recomputed, then the metric is set. `WellFormed` is the invariant every
  constructor establishes and `Click` keeps.
- **Descriptions** (`text.dfy`, module `Text`, plus `Workouts.Describe`). A
  description is the type, `" on "`, the month name and the day written in
  decimal. `DescribeInjective` proves that, for one type, the description
  identifies the month and day.
- **Collection owner** (`mapty.dfy`, module `Mapty`). The class `App` has
  one field, `workouts`, for `#workouts`. Its methods are `NewWorkout`
  (validate, then append), `Workouts` (the getter's fresh copy), `Select`
  (find by id, then click), `Save`, `Load` and `Reset`. Pure functions give
  each method its specification: `FormComplete`, `Create`, `FirstIndex`,
  `ClickFirst` and `Restore`.
- **Local storage** (`storage.dfy`, module `LocalStorage`). A class over a
  map from keys to values. The stored value is the list of records itself,
  not JSON text.

Points where the code behaves in a way a reader may not expect; the model follows the code:

- The validation (script.js:206) requires only that each field it reads is
  non-blank and finite. It never requires a positive value. So a duration of
  0 is accepted (`ZeroDurationAccepted`). Positivity appears
  only as a `requires` of `PacePositive` and `SpeedPositive`.
- The validation picks cadence or elevation by the form's type selector. The
  construction switch uses `init` when it is given. When `init` is given the
  validation result is ignored.
- An unknown type is not rejected at creation. The default branch builds a
  plain `"workout"` (script.js:219-222).
- Loading a record whose type is neither `"Running"` nor `"Cycling"` throws
  in the source, because no instance exists to copy the fields onto. The
  model's `Load` returns `false` in that case and leaves the list as it was
  (`SavePlainAndReload`). A click on an id that is not in the list also
  throws in the source before anything changes. `Select` returns `false`
  there and changes nothing.
- Ids are not unique in the source. `Select` clicks only the first match.

## Model

| member | source | states |
|---|---|---|
| Text.NatToString | script.js:258 | the day is written as a non-empty string of decimal digits with no leading zero |
| Text.ParseNatToString | script.js:258 | reading the written day back gives the same number, so no two days share a rendering |
| Workouts.Describe | script.js:255-260 | a description starts with the type followed by " on "; what follows is pinned down by DescribeInjective |
| Workouts.DescribeInjective | script.js:255-260 | two descriptions with the same type are equal only when month and day are both equal |
| Workouts.PaceOf | script.js:274-277 | pace exists exactly when distance is non-zero, and then pace times distance equals duration |
| Workouts.SpeedOf | script.js:292-295 | speed exists exactly when duration is non-zero, and then speed times duration equals 60 times distance |
| Workouts.PacePositive | script.js:275 | with positive distance and duration (assumed, never checked by the code) the pace exists and is positive |
| Workouts.SpeedPositive | script.js:293 | with positive distance and duration the speed exists and is positive |
| Workouts.NewPlain | script.js:241-250 | a new workout keeps the given id, distance, duration, coords and date, has type "workout" and 0 clicks, and is well formed |
| Workouts.NewRunning | script.js:265-277 | a new Running has type "Running", 0 clicks, the given cadence and name, a description made from the final type, and a pace that satisfies the pace formula |
| Workouts.NewCycling | script.js:283-295 | a new Cycling has type "Cycling", 0 clicks, the given elevation gain and name, a description made from the final type, and a speed that satisfies the speed formula |
| Workouts.Click | script.js:252-254 | clicks goes up by exactly one, every other field is unchanged, and well-formedness is kept |
| Workouts.RunningScenario | script.js:265-277 | a 5 km, 30 minute run has pace 6 and type "Running" |
| Workouts.CyclingScenario | script.js:283-295 | a 20 km, 60 minute ride has speed 20 |
| Mapty.CompleteIsReadable | script.js:206-217 | a form that passes validation gives numbers for every field the chosen constructor converts |
| Mapty.Create | script.js:212-223 | "running" gives a well-formed Running with the form's cadence, "cycling" a Cycling with the form's elevation, and any other type a plain workout; all keep the form's distance and duration (unary plus, blank reads as 0) and start with 0 clicks |
| Mapty.FirstIndex | script.js:60 | the result is the least position holding the id, or None when no workout holds it |
| Mapty.ClickFirst | script.js:60-68 | only the first workout with the id changes, and it gains exactly one click with every other field unchanged; length, order and ids stay the same; total clicks rise by one when the id is found and not otherwise; well-formedness is kept |
| Mapty.Assign | script.js:125 | the copy keeps every base field of the record; a record with subclass fields comes back unchanged, and one without keeps the fresh instance's subclass fields |
| Mapty.RestoreKeepsRecords | script.js:117-129 | restoring fails exactly when some record's type is neither "Running" nor "Cycling"; otherwise every record's stored fields, id, date and clicks included, come back in stored order, and a record with subclass fields comes back unchanged |
| Mapty.RestoreSavedList | script.js:110-129 | a well-formed list of Running and Cycling workouts is restored exactly |
| Mapty.RebuildAll | script.js:116-128 | the loop over stored records, stopping at the first that throws, computes exactly Restore |
| Mapty.App.constructor | script.js:18 | a new application starts with an empty list |
| Mapty.App.NewWorkout | script.js:202-227 | accepts exactly when init is a non-empty string or the form passes validation; the created workout's type is init when given, else the form's; on rejection the list is unchanged; on acceptance exactly one created workout is appended at the end and earlier elements are kept; well-formedness of the list is kept |
| Mapty.App.Workouts | script.js:229-231 | returns a freshly allocated array whose contents equal the list |
| Mapty.App.Select | script.js:56-69 | finds a match exactly when some workout has the id; the list becomes ClickFirst of the old list, and stays unchanged when there is no match |
| Mapty.App.Save | script.js:108-111 | the storage maps "workouts" to the current list, and every other key is untouched |
| Mapty.App.Load | script.js:113-129 | with nothing stored (getItem gives null) the list is unchanged; otherwise the list becomes the restored records, or stays unchanged when a record cannot be rebuilt |
| Mapty.App.Reset | script.js:233-234 | the "workouts" key is removed from storage and every other key is untouched |
| Mapty.SaveAndReload | script.js:108-129 | save, then load into a new application, gives back the same list when every workout is a well-formed Running or Cycling |
| Mapty.SavePlainAndReload | script.js:119-125 | a saved plain workout makes the next load fail, and the new application's list stays empty |
| Mapty.ResetAndReload | script.js:233-235 | after reset, a reloaded application finds nothing stored and has an empty list |
| Mapty.CopyIsIndependent | script.js:229-231 | writing into the getter's array leaves the application's list unchanged |
| Mapty.ZeroDurationAccepted | script.js:206-226 | a form with duration 0 is accepted and appended |
| Mapty.BlankDurationRejected | script.js:206-210 | a form with a blank duration is rejected and the list stays empty |
| Mapty.InitWithBlankFields | script.js:204-214 | with init "running" and every field blank, validation is skipped and a Running of distance 0, duration 0, cadence 0 and no finite pace is appended |
| LocalStorage.Storage.SetItem | script.js:110 | afterwards getItem of the key gives the value, and getItem of every other key is as before |
| LocalStorage.Storage.RemoveItem | script.js:234 | afterwards getItem of the key gives nothing, and getItem of every other key is as before |

## Left out

- Mapty.App.NewWorkout: when init is given, the fields the constructor reads must not be non-finite. They are excluded by a `requires` because the model's numbers are exact reals, while the source would store NaN or an infinity.
- Mapty.App.Workouts: the source's copy is shallow, so its elements are the same objects as the list's. Workouts here are values, so a `click()` made through the copy is not modelled.
- Mapty.Assign: a record whose subclass fields belong to the other type (a "Running" record holding elevation gain and speed) is kept with its own subclass fields. The source object would also carry the fresh instance's undefined name, cadence and NaN pace, and one record value cannot hold both sets of fields.
- Dates: only month (0 to 11) and day (1 to 31) are kept. The JSON text turns the date into a string, and that conversion is not modelled.
- Pace and speed: exact `real` arithmetic, with no IEEE-754 rounding. A zero divisor gives None where the source has Infinity or NaN, which JSON stores as null.
- JSON text and the real `localStorage`: storage is an abstract map from key to records.
- Clock reads for `id` and `date` are parameters.
- Trimming of form text: a field arrives already classed as blank, non-finite or a number, and the type selector's value arrives already trimmed.
- DOM lookups, form showing and hiding, field clearing, the elevation/cadence toggle, event wiring and the async start-up are left out as UI plumbing.
- Leaflet map, markers, popups, `setView` and geolocation are left out as a foreign library and I/O. The `setView` call in `moveToPopup` is part of this.
- HTML rendering of the list, including `toFixed(1)`, is left out as presentation.
- `location.reload()` is modelled only as a new `App` that loads from storage (`ResetAndReload`). `alert`, `console.log` and the commented-out code are left out.
