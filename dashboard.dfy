/** `Dashboard`: the search filter and the summary counts over the medicine
    list, and the handlers that open the form, submit it and confirm a delete. */
module Dashboard {
  import opened Records
  import opened Text
  import opened Seqs
  import opened Medicines
  import MedicineCard

  /** The search predicate: the lower-cased query occurs in the lower-cased name or dosage. */
  function Matches(query: string): Medicine -> bool
  {
    (m: Medicine) => Contains(Lower(m.name), Lower(query)) || Contains(Lower(m.dosage), Lower(query))
  }

  function FilteredMedicines(meds: seq<Medicine>, query: string): seq<Medicine>
  {
    Filter(meds, Matches(query))
  }

  /** The filter keeps exactly the matching medicines, in their order; an
      empty query keeps all of them. */
  lemma FilteredMedicinesEffect(meds: seq<Medicine>, query: string)
    ensures forall m :: m in FilteredMedicines(meds, query) <==>
              m in meds && (Contains(Lower(m.name), Lower(query)) || Contains(Lower(m.dosage), Lower(query)))
    ensures IsSubsequence(FilteredMedicines(meds, query), meds)
    ensures query == "" ==> FilteredMedicines(meds, query) == meds
  {
    FilterIsSubsequence(meds, Matches(query));
    if query == "" {
      forall m | m in meds ensures Matches(query)(m) {
        ContainsEmpty(Lower(m.name));
      }
      FilterAll(meds, Matches(query));
    }
  }

  /** Every copy of a matching medicine is kept, and no copy of any other. */
  lemma FilteredMedicinesCopies(meds: seq<Medicine>, query: string)
    ensures forall m :: multiset(FilteredMedicines(meds, query))[m] ==
              if Contains(Lower(m.name), Lower(query)) || Contains(Lower(m.dosage), Lower(query))
              then multiset(meds)[m] else 0
  {
    FilterCounts(meds, Matches(query));
  }

  /** Has an expiry date that is between today and seven days ahead. */
  function ExpiringSoon(days: string -> int): Medicine -> bool
  {
    (m: Medicine) => Present(m.expiryDate) && 0 <= days(m.expiryDate.value) <= 7
  }

  function Expired(days: string -> int): Medicine -> bool
  {
    (m: Medicine) => Present(m.expiryDate) && days(m.expiryDate.value) < 0
  }

  function HasActiveReminder(m: Medicine): bool
  {
    m.reminderEnabled && |m.scheduleTimes| > 0
  }

  function ExpiringCount(meds: seq<Medicine>, days: string -> int): nat
  {
    Count(meds, ExpiringSoon(days))
  }

  function ExpiredCount(meds: seq<Medicine>, days: string -> int): nat
  {
    Count(meds, Expired(days))
  }

  function ActiveReminders(meds: seq<Medicine>): nat
  {
    Count(meds, HasActiveReminder)
  }

  /** No medicine is counted both as expiring and as expired, so the two counts
      together never exceed the total; nor does the active-reminder count. The
      dashboard's "expiring" is the card's "expiring soon and not expired". */
  lemma CountBounds(meds: seq<Medicine>, days: string -> int)
    ensures ExpiringCount(meds, days) + ExpiredCount(meds, days) <= |meds|
    ensures ActiveReminders(meds) <= |meds|
    ensures forall m :: ExpiringSoon(days)(m) <==> MedicineCard.IsExpiringSoon(m, days) && !MedicineCard.IsExpired(m, days)
    ensures forall m :: Expired(days)(m) <==> MedicineCard.IsExpired(m, days)
  {
    DisjointCounts(meds, ExpiringSoon(days), Expired(days));
  }

  /** The page's own state fields. */
  class DashboardState {
    var formOpen: bool
    var editMedicine: Option<Medicine>
    var deleteId: Option<string>
    var infoMedicine: Option<Medicine>

    constructor ()
      ensures !formOpen && editMedicine.None? && deleteId.None? && infoMedicine.None?
    {
      formOpen, editMedicine, deleteId, infoMedicine := false, None, None, None;
    }

    /** `handleAdd`: open the form for a new medicine. */
    method HandleAdd()
      modifies this
      ensures formOpen && editMedicine.None?
      ensures deleteId == old(deleteId) && infoMedicine == old(infoMedicine)
    {
      editMedicine := None;
      formOpen := true;
    }

    /** `handleEdit(m)`: open the form on an existing medicine. */
    method HandleEdit(m: Medicine)
      modifies this
      ensures formOpen && editMedicine == Some(m)
      ensures deleteId == old(deleteId) && infoMedicine == old(infoMedicine)
    {
      editMedicine := Some(m);
      formOpen := true;
    }

    /** The form's `onClose`. */
    method CloseForm()
      modifies this
      ensures !formOpen && editMedicine.None?
      ensures deleteId == old(deleteId) && infoMedicine == old(infoMedicine)
    {
      formOpen := false;
      editMedicine := None;
    }

    /** A card's delete button: ask for confirmation of this id. */
    method RequestDelete(id: string)
      modifies this
      ensures deleteId == Some(id)
      ensures formOpen == old(formOpen) && editMedicine == old(editMedicine) && infoMedicine == old(infoMedicine)
    {
      deleteId := Some(id);
    }

    /** The delete confirmation's `onOpenChange`: drop the pending id. */
    method CancelDelete()
      modifies this
      ensures deleteId.None?
      ensures formOpen == old(formOpen) && editMedicine == old(editMedicine) && infoMedicine == old(infoMedicine)
    {
      deleteId := None;
    }

    /** A card's info button opens the information dialog on that medicine. */
    method ViewInfo(m: Medicine)
      modifies this
      ensures infoMedicine == Some(m)
      ensures formOpen == old(formOpen) && editMedicine == old(editMedicine) && deleteId == old(deleteId)
    {
      infoMedicine := Some(m);
    }

    /** The information dialog's `onClose`. */
    method CloseInfo()
      modifies this
      ensures infoMedicine.None?
      ensures formOpen == old(formOpen) && editMedicine == old(editMedicine) && deleteId == old(deleteId)
    {
      infoMedicine := None;
    }

    /** `handleFormSubmit`: update the edited medicine, or add a new one. */
    method HandleFormSubmit(input: MedicineInput, registry: MedicineRegistry, user: Option<string>,
                            insert: NewRow -> Remote<Medicine>,
                            update: (string, MedicineInput) -> Remote<Medicine>)
      modifies registry
      ensures editMedicine.Some? ==>
                (update(editMedicine.value.id, input).Ok? ==>
                   registry.medicines == ReplaceById(old(registry.medicines), editMedicine.value.id,
                                                     update(editMedicine.value.id, input).data))
                && (update(editMedicine.value.id, input).Err? ==> registry.medicines == old(registry.medicines))
      ensures editMedicine.None? ==>
                (user.Some? && insert(NewRow(input, user.value)).Ok? ==>
                   registry.medicines == Prepend(old(registry.medicines), insert(NewRow(input, user.value)).data))
                && (user.None? || insert(NewRow(input, user.value)).Err? ==> registry.medicines == old(registry.medicines))
      ensures registry.loading == old(registry.loading)
    {
      if editMedicine.Some? {
        var _ := registry.UpdateMedicine(editMedicine.value.id, input, update);
      } else {
        var _ := registry.AddMedicine(user, input, insert);
      }
    }

    /** `handleDelete`: only with a (non-blank) pending id, which it then clears. */
    method HandleDelete(registry: MedicineRegistry, delete: string -> Remote<()>)
      modifies this, registry
      ensures Present(old(deleteId)) ==> deleteId.None?
      ensures Present(old(deleteId)) && delete(old(deleteId).value).Ok? ==>
                registry.medicines == RemoveById(old(registry.medicines), old(deleteId).value)
      ensures Present(old(deleteId)) && delete(old(deleteId).value).Err? ==>
                registry.medicines == old(registry.medicines)
      ensures !Present(old(deleteId)) ==> deleteId == old(deleteId) && registry.medicines == old(registry.medicines)
      ensures registry.loading == old(registry.loading)
      ensures formOpen == old(formOpen) && editMedicine == old(editMedicine) && infoMedicine == old(infoMedicine)
    {
      if Present(deleteId) {
        var _ := registry.DeleteMedicine(deleteId.value, delete);
        deleteId := None;
      }
    }
  }
}
