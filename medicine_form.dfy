/** `MedicineForm`: the add/edit dialog. Its text fields hold strings (`""` when
    blank); its schedule is edited as a list of `HH:MM` strings kept sorted and
    free of duplicates by the add handler; on submit, blank optional fields
    become null. */
module MedicineForm {
  import opened Records
  import opened Seqs
  import opened StringSort
  import opened MedicineInfo

  /** The values the form library holds. */
  datatype FormValues = FormValues(
    name: string,
    dosage: string,
    expiryDate: string,
    barcode: string,
    description: string,
    usedFor: string,
    precautions: string,
    reminderEnabled: bool)

  /** `defaultValues`: every text field blank, reminders on. */
  const Defaults := FormValues("", "", "", "", "", "", "", true)

  /** The schema's messages for the values; submission needs none. */
  function SchemaErrors(v: FormValues): (errs: seq<string>)
    ensures errs == [] <==> v.name != "" && v.dosage != ""
    ensures "Medicine name is required" in errs <==> v.name == ""
    ensures "Dosage is required" in errs <==> v.dosage == ""
  {
    (if v.name == "" then ["Medicine name is required"] else [])
    + (if v.dosage == "" then ["Dosage is required"] else [])
  }

  /** `value || null`. */
  function NullIfBlank(s: string): (o: Option<string>)
    ensures o.None? <==> s == ""
    ensures o.Some? ==> o.value == s
  {
    if s == "" then None else Some(s)
  }

  /** The object `handleSubmit` passes on. */
  function ToInput(v: FormValues, scheduleTimes: seq<string>): (r: MedicineInput)
  {
    MedicineInput(v.name, v.dosage, scheduleTimes,
      NullIfBlank(v.expiryDate), NullIfBlank(v.barcode), NullIfBlank(v.description),
      NullIfBlank(v.usedFor), NullIfBlank(v.precautions), v.reminderEnabled)
  }

  /** The values the edit effect loads from a record: `field || ''`. */
  function LoadValues(m: Medicine): (v: FormValues)
  {
    FormValues(m.name, m.dosage,
      OrElse(m.expiryDate, ""), OrElse(m.barcode, ""), OrElse(m.description, ""),
      OrElse(m.usedFor, ""), OrElse(m.precautions, ""), m.reminderEnabled)
  }

  /** A blank optional field stays out of the submitted input and every other
      field is passed through, the schedule untouched. */
  lemma SubmitMapping(v: FormValues, times: seq<string>)
    ensures var r := ToInput(v, times);
            && r.name == v.name && r.dosage == v.dosage && r.reminderEnabled == v.reminderEnabled
            && r.scheduleTimes == times
            && (r.expiryDate.None? <==> v.expiryDate == "") && (r.barcode.None? <==> v.barcode == "")
            && (r.description.None? <==> v.description == "") && (r.usedFor.None? <==> v.usedFor == "")
            && (r.precautions.None? <==> v.precautions == "")
            && Present(r.expiryDate) == r.expiryDate.Some? && Present(r.barcode) == r.barcode.Some?
            && Present(r.description) == r.description.Some? && Present(r.usedFor) == r.usedFor.Some?
            && Present(r.precautions) == r.precautions.Some?
  {
  }

  /** Loading a record and submitting it unchanged gives back its fields, with
      a stored `""` normalised to null (null itself round-trips as null). */
  lemma LoadSubmitRoundTrip(m: Medicine)
    ensures var r := ToInput(LoadValues(m), m.scheduleTimes);
            && r.name == m.name && r.dosage == m.dosage && r.reminderEnabled == m.reminderEnabled
            && r.scheduleTimes == m.scheduleTimes
            && r.expiryDate == (if Present(m.expiryDate) then m.expiryDate else None)
            && r.barcode == (if Present(m.barcode) then m.barcode else None)
            && r.description == (if Present(m.description) then m.description else None)
            && r.usedFor == (if Present(m.usedFor) then m.usedFor else None)
            && r.precautions == (if Present(m.precautions) then m.precautions else None)
  {
  }

  /** Submitting values and loading the stored record back restores them. */
  lemma SubmitLoadRoundTrip(v: FormValues, times: seq<string>, m: Medicine)
    requires var r := ToInput(v, times);
             m.name == r.name && m.dosage == r.dosage && m.reminderEnabled == r.reminderEnabled
             && m.expiryDate == r.expiryDate && m.barcode == r.barcode && m.description == r.description
             && m.usedFor == r.usedFor && m.precautions == r.precautions
    ensures LoadValues(m) == v
  {
  }

  /** The form's shown values together with the values a bare `reset()`
      restores (the form library's stored defaults). */
  datatype FormReset = FormReset(values: FormValues, stored: FormValues)

  /** The load effect's `reset` as written: `reset(values)` shows the record's
      values and also makes them the stored defaults; a bare `reset()` shows
      the stored defaults, which are then no longer `defaultValues`. */
  function ResetOnLoad(r: FormReset, edit: Option<Medicine>): FormReset
  {
    if edit.Some? then FormReset(LoadValues(edit.value), LoadValues(edit.value))
    else FormReset(r.stored, r.stored)
  }

  /** The same effect with the stored defaults kept (`keepDefaultValues`), so a
      bare `reset()` always shows `defaultValues`. */
  function ResetKeepingDefaults(r: FormReset, edit: Option<Medicine>): FormReset
  {
    if edit.Some? then FormReset(LoadValues(edit.value), r.stored)
    else FormReset(r.stored, r.stored)
  }

  /** The state after the load effect has run for each of `edits` in turn,
      starting from a fresh form. */
  function RunLoads(step: (FormReset, Option<Medicine>) -> FormReset, edits: seq<Option<Medicine>>): FormReset
    decreases |edits|
  {
    if edits == [] then FormReset(Defaults, Defaults)
    else step(RunLoads(step, edits[..|edits| - 1]), edits[|edits| - 1])
  }

  /** The medicine most recently opened for editing, if any. */
  function LastEdited(edits: seq<Option<Medicine>>): (m: Option<Medicine>)
    ensures m.Some? ==> Some(m.value) in edits
    ensures m.None? <==> forall i :: 0 <= i < |edits| ==> edits[i].None?
    decreases |edits|
  {
    if edits == [] then None
    else if edits[|edits| - 1].Some? then edits[|edits| - 1]
    else LastEdited(edits[..|edits| - 1])
  }

  /** As written, the form always shows the most recently edited medicine,
      even when it is opened to add a new one. */
  lemma {:induction false} LoadsAsWritten(edits: seq<Option<Medicine>>)
    ensures RunLoads(ResetOnLoad, edits).values
              == if LastEdited(edits).Some? then LoadValues(LastEdited(edits).value) else Defaults
    ensures RunLoads(ResetOnLoad, edits).stored == RunLoads(ResetOnLoad, edits).values
    decreases |edits|
  {
    if edits != [] {
      LoadsAsWritten(edits[..|edits| - 1]);
    }
  }

  /** Editing a named medicine, closing the dialog and opening it to add shows
      that medicine's values instead of a blank form. */
  lemma AddAfterEditPrefilled(m: Medicine)
    requires m.name != ""
    ensures RunLoads(ResetOnLoad, [Some(m), None]).values == LoadValues(m)
    ensures RunLoads(ResetOnLoad, [Some(m), None]).values != Defaults
  {
    LoadsAsWritten([Some(m), None]);
    assert [Some(m), None][..1] == [Some(m)];
    assert [Some(m), None][..1][..0] == [];
  }

  /** With the defaults kept, the stored defaults never change, an edit shows
      the edited record and every other load shows a blank form. */
  lemma {:induction false} LoadsKeepingDefaults(edits: seq<Option<Medicine>>)
    ensures RunLoads(ResetKeepingDefaults, edits).stored == Defaults
    ensures edits != [] ==>
              RunLoads(ResetKeepingDefaults, edits).values
                == if edits[|edits| - 1].Some? then LoadValues(edits[|edits| - 1].value) else Defaults
    decreases |edits|
  {
    if edits != [] {
      LoadsKeepingDefaults(edits[..|edits| - 1]);
    }
  }

  /** `[...scheduleTimes, newTime].sort()` when `newTime` is non-blank and new. */
  function AddTime(times: seq<string>, t: string): seq<string>
  {
    if t != "" && t !in times then Sort(times + [t]) else times
  }

  /** `scheduleTimes.filter(x => x !== t)`. */
  function RemoveTime(times: seq<string>, t: string): seq<string>
  {
    Filter(times, OtherTime(t))
  }

  function OtherTime(t: string): string -> bool
  {
    (x: string) => x != t
  }

  /** Adding a time: a blank or present time changes nothing; otherwise the
      result holds the old entries and the new one, sorted. From a sorted,
      duplicate-free list the result is sorted and duplicate-free, and it is
      the old list with the time inserted in place. */
  lemma AddTimeEffect(times: seq<string>, t: string)
    ensures t == "" || t in times ==> AddTime(times, t) == times
    ensures t != "" && t !in times ==>
              multiset(AddTime(times, t)) == multiset(times) + multiset{t} && Sorted(AddTime(times, t))
    ensures Sorted(times) && NoDuplicates(times) ==>
              Sorted(AddTime(times, t)) && NoDuplicates(AddTime(times, t))
    ensures Sorted(times) && t != "" && t !in times ==> AddTime(times, t) == Insert(times, t)
  {
    if t != "" && t !in times {
      var r := Sort(times + [t]);
      if Sorted(times) {
        InsertSorted(times, t);
        SortedUnique(r, Insert(times, t));
        if NoDuplicates(times) {
          InsertKeepsNoDuplicates(times, t);
        }
      }
    }
  }

  lemma {:induction false} FilterKeepsSorted(s: seq<string>, p: string -> bool)
    requires Sorted(s)
    ensures Sorted(Filter(s, p))
    decreases |s|
  {
    if s != [] {
      FilterKeepsSorted(s[1..], p);
      var tail := Filter(s[1..], p);
      forall j | 0 <= j < |tail| ensures Below(s[0], tail[j]) {
        assert tail[j] in s[1..];
      }
    }
  }

  lemma {:induction false} FilterKeepsNoDuplicates(s: seq<string>, p: string -> bool)
    requires NoDuplicates(s)
    ensures NoDuplicates(Filter(s, p))
    decreases |s|
  {
    if s != [] {
      FilterKeepsNoDuplicates(s[1..], p);
      var tail := Filter(s[1..], p);
      forall j | 0 <= j < |tail| ensures s[0] != tail[j] {
        assert tail[j] in s[1..];
      }
    }
  }

  /** Removing a time leaves no occurrence of it, keeps every other entry in
      its order, and keeps a sorted, duplicate-free list so. */
  lemma RemoveTimeEffect(times: seq<string>, t: string)
    ensures t !in RemoveTime(times, t)
    ensures forall x :: x in RemoveTime(times, t) <==> x in times && x != t
    ensures forall x :: multiset(RemoveTime(times, t))[x] == if x != t then multiset(times)[x] else 0
    ensures IsSubsequence(RemoveTime(times, t), times)
    ensures Sorted(times) ==> Sorted(RemoveTime(times, t))
    ensures NoDuplicates(times) ==> NoDuplicates(RemoveTime(times, t))
  {
    FilterIsSubsequence(times, OtherTime(t));
    FilterCounts(times, OtherTime(t));
    if Sorted(times) { FilterKeepsSorted(times, OtherTime(t)); }
    if NoDuplicates(times) { FilterKeepsNoDuplicates(times, OtherTime(t)); }
  }

  /** Values after a name search: purpose and warnings are taken over; the
      dosage text only fills a blank description. */
  function FillFromSearch(v: FormValues, info: Option<Info>): (w: FormValues)
    ensures info.None? ==> w == v
    ensures info.Some? ==> w.usedFor == info.value.purpose && w.precautions == info.value.warnings
    ensures info.Some? && v.description != "" ==> w.description == v.description
    ensures info.Some? && v.description == "" ==> w.description == info.value.dosageAndAdministration
    ensures w.name == v.name && w.dosage == v.dosage && w.barcode == v.barcode
    ensures w.expiryDate == v.expiryDate && w.reminderEnabled == v.reminderEnabled
  {
    if info.None? then v
    else
      var i := info.value;
      v.(usedFor := i.purpose, precautions := i.warnings,
         description := if v.description == "" then i.dosageAndAdministration else v.description)
  }

  /** Values after a barcode scan: the barcode is recorded, and a found record
      overwrites name, purpose, warnings and description. */
  function FillFromScan(v: FormValues, barcode: string, info: Option<Info>): (w: FormValues)
    ensures w.barcode == barcode && w.dosage == v.dosage && w.expiryDate == v.expiryDate
    ensures w.reminderEnabled == v.reminderEnabled
    ensures info.None? ==> w == v.(barcode := barcode)
    ensures info.Some? ==> w.name == info.value.name && w.usedFor == info.value.purpose
    ensures info.Some? ==> w.precautions == info.value.warnings && w.description == info.value.dosageAndAdministration
  {
    var scanned := v.(barcode := barcode);
    if info.None? then scanned
    else
      var i := info.value;
      scanned.(name := i.name, usedFor := i.purpose, precautions := i.warnings,
               description := i.dosageAndAdministration)
  }

  /** The dialog's own state. */
  class FormState {
    var values: FormValues
    /** The values a bare `reset()` restores. */
    var stored: FormValues
    var scheduleTimes: seq<string>
    var newTime: string

    constructor ()
      ensures values == Defaults && stored == Defaults && scheduleTimes == [] && newTime == ""
    {
      values, stored, scheduleTimes, newTime := Defaults, Defaults, [], "";
    }

    /** The effect run when the dialog opens or closes or the edited record
        changes, with `reset` behaving as `ResetOnLoad` describes. */
    method Load(edit: Option<Medicine>)
      modifies this
      ensures FormReset(values, stored) == ResetOnLoad(FormReset(old(values), old(stored)), edit)
      ensures edit.None? ==> values == old(stored)
      ensures scheduleTimes == if edit.Some? then edit.value.scheduleTimes else []
      ensures newTime == old(newTime)
    {
      if edit.Some? {
        values := LoadValues(edit.value);
        stored := values;
        scheduleTimes := edit.value.scheduleTimes;
      } else {
        values := stored;
        scheduleTimes := [];
      }
    }

    /** `setNewTime` from the time input. */
    method SetNewTime(t: string)
      modifies this
      ensures newTime == t && values == old(values) && scheduleTimes == old(scheduleTimes)
      ensures stored == old(stored)
    {
      newTime := t;
    }

    /** `handleAddTime`. */
    method HandleAddTime()
      modifies this
      ensures scheduleTimes == AddTime(old(scheduleTimes), old(newTime))
      ensures newTime == if old(newTime) != "" && old(newTime) !in old(scheduleTimes) then "" else old(newTime)
      ensures values == old(values) && stored == old(stored)
    {
      if newTime != "" && newTime !in scheduleTimes {
        scheduleTimes := Sort(scheduleTimes + [newTime]);
        newTime := "";
      }
    }

    /** `handleRemoveTime(t)`. */
    method HandleRemoveTime(t: string)
      modifies this
      ensures scheduleTimes == RemoveTime(old(scheduleTimes), t)
      ensures values == old(values) && newTime == old(newTime) && stored == old(stored)
    {
      scheduleTimes := RemoveTime(scheduleTimes, t);
    }

    /** `form.handleSubmit(handleSubmit)`: the input handed to `onSubmit`, or
        None when the schema rejects the values. */
    method HandleSubmit() returns (submitted: Option<MedicineInput>)
      ensures submitted.Some? <==> values.name != "" && values.dosage != ""
      ensures submitted.Some? ==> submitted.value == ToInput(values, scheduleTimes)
    {
      if SchemaErrors(values) != [] {
        return None;
      }
      return Some(ToInput(values, scheduleTimes));
    }

    /** `handleSearchInfo`: no lookup for a blank name. */
    method HandleSearchInfo(lookup: Lookup, exact: string -> Response<LabelData>, lenient: string -> Response<LabelData>)
      modifies this, lookup
      ensures old(values.name) == "" ==>
                values == old(values) && lookup.error == old(lookup.error) && lookup.loading == old(lookup.loading)
      ensures old(values.name) != "" ==>
                values == FillFromSearch(old(values), Search(old(values.name), exact, lenient).info)
                && lookup.error == Search(old(values.name), exact, lenient).error && !lookup.loading
      ensures scheduleTimes == old(scheduleTimes) && newTime == old(newTime) && stored == old(stored)
    {
      if values.name == "" {
        return;
      }
      var info := lookup.SearchMedicine(values.name, exact, lenient);
      values := FillFromSearch(values, info);
    }

    /** `handleBarcodeScan(barcode)`. */
    method HandleBarcodeScan(barcode: string, lookup: Lookup, catalogue: string -> Response<ProductData>,
                             exact: string -> Response<LabelData>, lenient: string -> Response<LabelData>)
      modifies this, lookup
      ensures values == FillFromScan(old(values), barcode, ByBarcode(barcode, catalogue, exact, lenient).info)
      ensures lookup.error == ByBarcode(barcode, catalogue, exact, lenient).error && !lookup.loading
      ensures scheduleTimes == old(scheduleTimes) && newTime == old(newTime) && stored == old(stored)
    {
      var info := lookup.SearchByBarcode(barcode, catalogue, exact, lenient);
      values := FillFromScan(values, barcode, info);
    }
  }
}
