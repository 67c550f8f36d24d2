/** `MedicineInfoDialog`: shows the information stored with a medicine or, when
    none is stored, the result of a name lookup; then picks one panel. */
module InfoDialog {
  import opened Records
  import opened MedicineInfo

  /** What the effect does when `open` or `medicine` changes. */
  datatype Action = NoChange | ShowStored(info: Info) | LookUp(query: string)

  /** The record built from the stored fields, each defaulted when blank. */
  function StoredInfo(m: Medicine): (info: Info)
    ensures info.name == m.name && info.activeIngredients == []
    ensures info.purpose == OrElse(m.usedFor, "Not available")
    ensures info.warnings == OrElse(m.precautions, "No specific warnings")
    ensures info.dosageAndAdministration == OrElse(m.description, "Consult your doctor")
    ensures info.purpose != "" && info.warnings != "" && info.dosageAndAdministration != ""
  {
    Info(m.name, OrElse(m.usedFor, "Not available"), OrElse(m.precautions, "No specific warnings"),
         OrElse(m.description, "Consult your doctor"), [])
  }

  /** Nothing happens unless the dialog is open on a medicine; stored purpose
      or precautions avoid the lookup. */
  function ActionOf(open: bool, medicine: Option<Medicine>): (a: Action)
    ensures !open || medicine.None? ==> a == NoChange
    ensures open && medicine.Some? ==>
              (Present(medicine.value.usedFor) || Present(medicine.value.precautions) ==> a == ShowStored(StoredInfo(medicine.value)))
    ensures open && medicine.Some? ==>
              (!Present(medicine.value.usedFor) && !Present(medicine.value.precautions) ==> a == LookUp(medicine.value.name))
  {
    if !open || medicine.None? then NoChange
    else if Present(medicine.value.usedFor) || Present(medicine.value.precautions) then ShowStored(StoredInfo(medicine.value))
    else LookUp(medicine.value.name)
  }

  /** The `info` state after the effect has run and any lookup has answered. */
  function NextInfo(prev: Option<Info>, open: bool, medicine: Option<Medicine>,
                    exact: string -> Response<LabelData>, lenient: string -> Response<LabelData>): (info: Option<Info>)
    ensures ActionOf(open, medicine).NoChange? ==> info == prev
    ensures ActionOf(open, medicine).ShowStored? ==> info == Some(StoredInfo(medicine.value))
    ensures ActionOf(open, medicine).LookUp? ==> info == Search(medicine.value.name, exact, lenient).info
  {
    match ActionOf(open, medicine)
    case NoChange => prev
    case ShowStored(i) => Some(i)
    case LookUp(q) => Search(q, exact, lenient).info
  }

  /** After the effect, with loading over: a lookup that finds nothing leaves
      an error, shown unless its text is empty; a lookup that finds a record
      leaves no error and shows the record; stored information is shown
      whatever error an earlier lookup left behind. */
  lemma DialogOutcome(open: bool, medicine: Option<Medicine>, prev: Option<Info>,
                      exact: string -> Response<LabelData>, lenient: string -> Response<LabelData>,
                      staleError: Option<string>)
    requires open && medicine.Some?
    ensures var info := NextInfo(prev, open, medicine, exact, lenient);
            var e := Search(medicine.value.name, exact, lenient).error;
            ActionOf(open, medicine).LookUp? && info.None? ==>
              e.Some? && PanelOf(false, e, info) == (if e.value == "" then Blank else ErrorPanel(e.value))
    ensures var info := NextInfo(prev, open, medicine, exact, lenient);
            var e := Search(medicine.value.name, exact, lenient).error;
            ActionOf(open, medicine).LookUp? && info.Some? ==>
              e.None? && PanelOf(false, e, info) == InfoPanel(info.value)
    ensures ActionOf(open, medicine).ShowStored? ==>
              PanelOf(false, staleError, NextInfo(prev, open, medicine, exact, lenient))
                == InfoPanel(StoredInfo(medicine.value))
  {
    SearchOutcomes(medicine.value.name, exact, lenient, lenient);
  }

  datatype Panel = Spinner | ErrorPanel(message: string) | InfoPanel(info: Info) | Blank

  /** Loading first, then an error without information, then the information. */
  function PanelOf(loading: bool, error: Option<string>, info: Option<Info>): (p: Panel)
    ensures loading ==> p == Spinner
    ensures !loading && Present(error) && info.None? ==> p == ErrorPanel(error.value)
    ensures !loading && info.Some? ==> p == InfoPanel(info.value)
    ensures !loading && !Present(error) && info.None? ==> p == Blank
  {
    if loading then Spinner
    else if Present(error) && info.None? then ErrorPanel(error.value)
    else if info.Some? then InfoPanel(info.value)
    else Blank
  }
}
