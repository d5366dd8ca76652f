/** The application object: it owns the ordered list of workouts, validates
    the form, appends new workouts, counts clicks on a selected one, and saves
    and restores the list through local storage. */
module Mapty {

  import opened Wrappers
  import opened Workouts
  import opened LocalStorage

  /** The storage key the list is saved under. */
  const StorageKey: string := "workouts"

  /** One form input: blank after trimming, text whose numeric value is not
      finite (NaN or an infinity), or a finite number. */
  datatype Field = Blank | NotFinite | Number(value: real)

  /** Unary plus on the input's text: blank text reads as 0. */
  function NumberOf(f: Field): real
    requires !f.NotFinite?
  {
    match f
    case Blank => 0.0
    case Number(v) => v
  }

  /** The form as the submit handler sees it; `kind` is the trimmed value of
      the type selector. */
  datatype Form = Form(kind: string, distance: Field, duration: Field, cadence: Field, elevation: Field)

  /** The validation: every field it looks at is non-blank and finite and the
      coordinates are not empty. Cadence is required when the form's type is
      "running", elevation otherwise. Nothing is required to be positive. */
  predicate FormComplete(form: Form, coords: seq<real>) {
    && form.distance.Number?
    && form.duration.Number?
    && |coords| > 0
    && (if form.kind == "running" then form.cadence.Number? else form.elevation.Number?)
  }

  /** `init` counts as given when it is a non-empty string (JavaScript truthiness). */
  predicate Given(init: Option<string>) {
    init.Some? && init.value != ""
  }

  /** The type the switch dispatches on: `init` when given, else the form's. */
  function KindOf(form: Form, init: Option<string>): string
  {
    if Given(init) then init.value else form.kind
  }

  /** The fields the constructor for `kind` converts hold a number (finite or
      blank). */
  predicate Readable(form: Form, kind: string) {
    && !form.distance.NotFinite?
    && !form.duration.NotFinite?
    && (kind == "running" ==> !form.cadence.NotFinite?)
    && (kind == "cycling" ==> !form.elevation.NotFinite?)
  }

  lemma CompleteIsReadable(form: Form, coords: seq<real>)
    requires FormComplete(form, coords)
    ensures Readable(form, form.kind)
  {
  }

  /** The switch in `newWorkout`: "running" builds a Running, "cycling" a
      Cycling, anything else a plain workout. The name is always "test". */
  function Create(kind: string, form: Form, coords: seq<real>, id: string, date: Date): (w: Workout)
    requires Readable(form, kind)
    ensures WellFormed(w) && w.clicks == 0
    ensures w.id == id && w.date == date && w.coords == coords
    ensures w.distance == NumberOf(form.distance) && w.duration == NumberOf(form.duration)
    ensures kind == "running" ==>
              && w.tag == RunningTag && w.variant.RunningData?
              && w.variant.cadence == Some(NumberOf(form.cadence)) && w.variant.name == Some("test")
    ensures kind == "cycling" ==>
              && w.tag == CyclingTag && w.variant.CyclingData?
              && w.variant.elevationGain == Some(NumberOf(form.elevation)) && w.variant.name == Some("test")
    ensures kind != "running" && kind != "cycling" ==> w.tag == PlainTag && w.variant.Generic?
  {
    var distance, duration := NumberOf(form.distance), NumberOf(form.duration);
    if kind == "running" then
      NewRunning(distance, duration, coords, "test", NumberOf(form.cadence), id, date)
    else if kind == "cycling" then
      NewCycling(distance, duration, coords, "test", NumberOf(form.elevation), id, date)
    else
      NewPlain(distance, duration, coords, id, date)
  }

  predicate AllWellFormed(ws: seq<Workout>) {
    forall i :: 0 <= i < |ws| ==> WellFormed(ws[i])
  }

  /** `find`: the first position holding `id`. */
  function FirstIndex(ws: seq<Workout>, id: string): (r: Option<nat>)
    ensures r.Some? ==> r.value < |ws| && ws[r.value].id == id
    ensures r.Some? ==> forall j :: 0 <= j < r.value ==> ws[j].id != id
    ensures r.None? ==> forall j :: 0 <= j < |ws| ==> ws[j].id != id
  {
    if |ws| == 0 then None
    else if ws[0].id == id then Some(0)
    else match FirstIndex(ws[1..], id)
      case None => None
      case Some(k) => Some(k + 1)
  }

  /** The list after the first workout holding `id` was clicked. */
  function ClickFirst(ws: seq<Workout>, id: string): (r: seq<Workout>)
    ensures |r| == |ws|
    ensures forall j :: 0 <= j < |ws| && Some(j) != FirstIndex(ws, id) ==> r[j] == ws[j]
    ensures FirstIndex(ws, id).Some? ==>
              var i := FirstIndex(ws, id).value;
              r[i].clicks == ws[i].clicks + 1 && r[i].(clicks := ws[i].clicks) == ws[i]
    ensures forall j :: 0 <= j < |ws| ==> r[j].id == ws[j].id
    ensures TotalClicks(r) == TotalClicks(ws) + (if FirstIndex(ws, id).Some? then 1 else 0)
    ensures AllWellFormed(ws) ==> AllWellFormed(r)
  {
    match FirstIndex(ws, id)
    case None => ws
    case Some(i) =>
      TotalClicksUpdate(ws, i, Click(ws[i]));
      ws[i := Click(ws[i])]
  }

  /** The clicks of all workouts together. */
  function TotalClicks(ws: seq<Workout>): nat {
    if |ws| == 0 then 0 else ws[0].clicks + TotalClicks(ws[1..])
  }

  lemma {:induction false} TotalClicksUpdate(ws: seq<Workout>, i: nat, w: Workout)
    requires i < |ws|
    ensures TotalClicks(ws[i := w]) == TotalClicks(ws) - ws[i].clicks + w.clicks
  {
    if i > 0 {
      assert ws[i := w][1..] == ws[1..][i - 1 := w];
      TotalClicksUpdate(ws[1..], i - 1, w);
    } else {
      assert ws[i := w][1..] == ws[1..];
    }
  }

  /** A stored record can be rebuilt when its type is "Running" or
      "Cycling"; for any other type the source has no instance to copy the
      fields onto and the copy throws. */
  predicate Restorable(rec: Workout) {
    rec.tag == RunningTag || rec.tag == CyclingTag
  }

  /** The subclass fields of `new Running()` or `new Cycling()` called
      without arguments: name and the variant field are undefined and the
      metric, computed from undefined distance and duration, is NaN. The
      base fields of that instance are all overwritten by any record. */
  function FreshVariant(tag: string): Variant {
    if tag == RunningTag then RunningData(None, None, None) else CyclingData(None, None, None)
  }

  /** `Object.assign(instance, rec)`, where `blank` holds the instance's
      subclass fields: every field the record carries replaces the
      instance's. A record always carries the base fields; a record without
      subclass fields leaves the instance's in place. */
  function Assign(blank: Variant, rec: Workout): (w: Workout)
    ensures w.(variant := rec.variant) == rec
    ensures !rec.variant.Generic? ==> w == rec
    ensures rec.variant.Generic? ==> w.variant == blank
  {
    var base := rec.(variant := blank);
    match rec.variant
    case Generic => base
    case _ => base.(variant := rec.variant)
  }

  /** One step of the `forEach` in `getLocaleStorage` (script.js:119-125):
      dispatch on the stored type, then copy the record onto the fresh
      instance; None where the source throws. */
  function Rebuild(rec: Workout): Option<Workout> {
    if rec.tag == RunningTag then Some(Assign(FreshVariant(RunningTag), rec))
    else if rec.tag == CyclingTag then Some(Assign(FreshVariant(CyclingTag), rec))
    else None
  }

  /** The restored list: every record rebuilt in stored order, or None when
      one record cannot be rebuilt. */
  function Restore(records: seq<Workout>): (r: Option<seq<Workout>>)
    ensures r.Some? ==> |r.value| == |records|
  {
    if forall i :: 0 <= i < |records| ==> Restorable(records[i])
    then Some(seq(|records|, i requires 0 <= i < |records| => Rebuild(records[i]).value))
    else None
  }

  /** Restoring fails exactly when some record has another type; otherwise
      every restored workout keeps the id, date, clicks and every other
      stored field of its record, in stored order, and only a record without
      subclass fields gains the fresh instance's undefined and NaN ones. */
  lemma RestoreKeepsRecords(records: seq<Workout>)
    ensures Restore(records).None? <==> exists i :: 0 <= i < |records| && !Restorable(records[i])
    ensures Restore(records).Some? ==>
              forall i :: 0 <= i < |records| ==>
                && Restore(records).value[i].(variant := records[i].variant) == records[i]
                && (!records[i].variant.Generic? ==> Restore(records).value[i] == records[i])
  {
  }

  /** Records that carry the subclass fields of their type, as every saved
      Running and Cycling does, come back unchanged. */
  lemma RestoreSavedList(ws: seq<Workout>)
    requires AllWellFormed(ws)
    requires forall i :: 0 <= i < |ws| ==> Restorable(ws[i])
    ensures Restore(ws) == Some(ws)
  {
    RestoreKeepsRecords(ws);
    forall i | 0 <= i < |ws| ensures !ws[i].variant.Generic? {
      assert WellFormed(ws[i]) && Restorable(ws[i]);
    }
    assert Restore(ws).value == ws;
  }

  /** The `forEach` in `getLocaleStorage`: each record rebuilt and pushed
      in order, stopping at the first one that throws. */
  method RebuildAll(records: seq<Workout>) returns (restored: Option<seq<Workout>>)
    ensures restored == Restore(records)
  {
    var rebuilt: seq<Workout> := [];
    var i := 0;
    while i < |records|
      invariant 0 <= i <= |records|
      invariant |rebuilt| == i
      invariant forall j :: 0 <= j < i ==> Restorable(records[j]) && rebuilt[j] == Rebuild(records[j]).value
    {
      var w := Rebuild(records[i]);
      if w.None? {
        assert !Restorable(records[i]);
        return None;
      }
      rebuilt := rebuilt + [w.value];
      i := i + 1;
    }
    assert rebuilt == seq(|records|, j requires 0 <= j < |records| => Rebuild(records[j]).value);
    restored := Some(rebuilt);
  }

  /** With `init` given and every field blank, the blank text reads as 0: a
      Running of distance 0 and duration 0 is appended, whose pace is NaN. */
  method InitWithBlankFields(id: string, date: Date) returns (ok: bool, w: Workout)
    ensures ok && w.tag == RunningTag
    ensures w.distance == 0.0 && w.duration == 0.0
    ensures w.variant.RunningData? && w.variant.cadence == Some(0.0) && w.variant.pace.None?
  {
    var app := new App();
    var form := Form("cycling", Blank, Blank, Blank, Blank);
    ok := app.NewWorkout([], form, Some("running"), id, date);
    w := app.workouts[0];
  }

  class App {
    /** `#workouts`, in creation order. */
    var workouts: seq<Workout>

    constructor ()
      ensures workouts == []
    {
      workouts := [];
    }

    /** `newWorkout(newCoords, init)`. The id and date the source reads from
        the clock are parameters. */
    method NewWorkout(coords: seq<real>, form: Form, init: Option<string>, id: string, date: Date)
      returns (ok: bool)
      requires Given(init) ==> Readable(form, init.value)
      modifies this
      ensures ok <==> Given(init) || FormComplete(form, coords)
      ensures !ok ==> workouts == old(workouts)
      ensures ok ==> workouts == old(workouts) + [Create(KindOf(form, init), form, coords, id, date)]
      ensures old(workouts) <= workouts && |workouts| <= |old(workouts)| + 1
      ensures AllWellFormed(old(workouts)) ==> AllWellFormed(workouts)
    {
      var kind := KindOf(form, init);
      var checkForm :=
        !form.distance.Number? || !form.duration.Number? || |coords| == 0
        || (if form.kind == "running" then !form.cadence.Number? else !form.elevation.Number?);
      if checkForm && !Given(init) {
        return false;
      }
      var workout := Create(kind, form, coords, id, date);
      workouts := workouts + [workout];
      ok := true;
    }

    /** The `workouts` getter: a new array holding the list. */
    method Workouts() returns (copy: array<Workout>)
      ensures fresh(copy)
      ensures copy[..] == workouts
    {
      var ws := workouts;
      copy := new Workout[|ws|](i requires 0 <= i < |ws| => ws[i]);
    }

    /** The model part of `moveToPopup`: find the first workout with the
        selected id and click it. When none matches, the source fails on
        the missing workout before clicking, so nothing changes. */
    method Select(id: string) returns (found: bool)
      modifies this
      ensures found <==> exists j :: 0 <= j < |old(workouts)| && old(workouts)[j].id == id
      ensures workouts == ClickFirst(old(workouts), id)
      ensures !found ==> workouts == old(workouts)
    {
      var at := FirstIndex(workouts, id);
      if at.None? {
        return false;
      }
      workouts := workouts[at.value := Click(workouts[at.value])];
      found := true;
    }

    /** `setLocaleStorage`: the whole list under the fixed key. */
    method Save(storage: Storage<seq<Workout>>)
      modifies storage
      ensures storage.items == old(storage.items)[StorageKey := workouts]
    {
      var ws := Workouts();
      storage.SetItem(StorageKey, ws[..]);
    }

    /** `getLocaleStorage`. With nothing stored the list stays as it is;
        otherwise it is replaced by the restored records. `ok` is false when
        a record cannot be rebuilt: the source throws there, before the list
        is replaced. */
    method Load(storage: Storage<seq<Workout>>) returns (ok: bool)
      modifies this
      ensures storage.GetItem(StorageKey).None? ==> ok && workouts == old(workouts)
      ensures storage.GetItem(StorageKey).Some? ==>
        var restored := Restore(storage.GetItem(StorageKey).value);
        ok == restored.Some? && workouts == (if ok then restored.value else old(workouts))
    {
      var stored := storage.GetItem(StorageKey);
      if stored.None? {
        return true;
      }
      var restored := RebuildAll(stored.value);
      if restored.None? {
        return false;
      }
      workouts := restored.value;
      ok := true;
    }

    /** The storage part of `reset`: the key is removed. */
    method Reset(storage: Storage<seq<Workout>>)
      modifies storage
      ensures storage.items == old(storage.items) - {StorageKey}
    {
      storage.RemoveItem(StorageKey);
    }
  }

  /** Saving, then starting afresh and loading, gives back the same list in
      the same order, ids, dates and clicks included, as long as every
      workout is a Running or a Cycling. */
  method SaveAndReload(app: App, storage: Storage<seq<Workout>>) returns (reloaded: App, ok: bool)
    requires AllWellFormed(app.workouts)
    requires forall i :: 0 <= i < |app.workouts| ==> Restorable(app.workouts[i])
    modifies storage
    ensures fresh(reloaded) && ok
    ensures reloaded.workouts == app.workouts
  {
    RestoreSavedList(app.workouts);
    app.Save(storage);
    reloaded := new App();
    ok := reloaded.Load(storage);
  }

  /** A plain workout in the saved list makes the next load fail, leaving
      the new application's list empty. */
  method SavePlainAndReload(app: App, storage: Storage<seq<Workout>>) returns (reloaded: App, ok: bool)
    requires exists i :: 0 <= i < |app.workouts| && app.workouts[i].tag == PlainTag
    modifies storage
    ensures fresh(reloaded) && !ok
    ensures reloaded.workouts == []
  {
    app.Save(storage);
    reloaded := new App();
    RestoreKeepsRecords(app.workouts);
    ok := reloaded.Load(storage);
  }

  /** After `reset` the page reloads; the new application finds nothing
      stored and starts with an empty list. */
  method ResetAndReload(app: App, storage: Storage<seq<Workout>>) returns (reloaded: App)
    modifies storage
    ensures fresh(reloaded) && reloaded.workouts == []
    ensures storage.GetItem(StorageKey).None?
  {
    app.Reset(storage);
    reloaded := new App();
    var _ := reloaded.Load(storage);
  }

  /** Writing into the getter's array leaves the list untouched. */
  method CopyIsIndependent(app: App, w: Workout)
    ensures app.workouts == old(app.workouts)
  {
    var copy := app.Workouts();
    if copy.Length > 0 {
      copy[0] := w;
    }
  }

  /** A duration of 0 passes validation: the check looks only at blank and
      non-finite input. */
  method ZeroDurationAccepted(id: string, date: Date) returns (ok: bool, count: nat)
    ensures ok && count == 1
  {
    var app := new App();
    var form := Form("running", Number(5.0), Number(0.0), Number(150.0), Blank);
    ok := app.NewWorkout([10.0, 20.0], form, None, id, date);
    count := |app.workouts|;
  }

  /** A blank duration is refused and the list keeps its length. */
  method BlankDurationRejected(id: string, date: Date) returns (ok: bool, count: nat)
    ensures !ok && count == 0
  {
    var app := new App();
    var form := Form("cycling", Number(20.0), Blank, Blank, Number(100.0));
    ok := app.NewWorkout([1.0, 1.0], form, None, id, date);
    count := |app.workouts|;
  }
}
