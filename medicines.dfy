/** `useMedicines`: the client-side copy of the signed-in user's medicine list,
    reconciled with the record store after each remote call. A remote call is a
    function from the request to its outcome; the list changes only on success. */
module Medicines {
  import opened Records
  import opened Seqs

  /** The row sent on insert: the input's fields plus the owner's id. */
  datatype NewRow = NewRow(fields: MedicineInput, userId: string)

  /** The list after a successful insert: the new record first. */
  function Prepend(meds: seq<Medicine>, rec: Medicine): (r: seq<Medicine>)
    ensures |r| == |meds| + 1 && r[0] == rec && r[1..] == meds
  {
    [rec] + meds
  }

  /** `prev.map(m => m.id === id ? data : m)`. */
  function ReplaceById(meds: seq<Medicine>, id: string, rec: Medicine): (r: seq<Medicine>)
    ensures |r| == |meds|
    ensures forall i :: 0 <= i < |meds| && meds[i].id == id ==> r[i] == rec
    ensures forall i :: 0 <= i < |meds| && meds[i].id != id ==> r[i] == meds[i]
    decreases |meds|
  {
    if meds == [] then []
    else [if meds[0].id == id then rec else meds[0]] + ReplaceById(meds[1..], id, rec)
  }

  /** The filter predicate `m => m.id !== id`. */
  function OtherId(id: string): Medicine -> bool
  {
    (m: Medicine) => m.id != id
  }

  /** `prev.filter(m => m.id !== id)`. */
  function RemoveById(meds: seq<Medicine>, id: string): (r: seq<Medicine>)
  {
    Filter(meds, OtherId(id))
  }

  /** Deleting removes every record with the id and keeps the others in order. */
  lemma RemoveByIdEffect(meds: seq<Medicine>, id: string)
    ensures forall m :: m in RemoveById(meds, id) <==> m in meds && m.id != id
    ensures IsSubsequence(RemoveById(meds, id), meds)
    ensures (forall m :: m in meds ==> m.id != id) ==> RemoveById(meds, id) == meds
  {
    FilterIsSubsequence(meds, OtherId(id));
    if forall m :: m in meds ==> m.id != id {
      FilterAll(meds, OtherId(id));
    }
  }

  /** Every copy of a record with another id is kept, and no record with the id. */
  lemma RemoveByIdCopies(meds: seq<Medicine>, id: string)
    ensures forall m :: multiset(RemoveById(meds, id))[m] == if m.id != id then multiset(meds)[m] else 0
  {
    FilterCounts(meds, OtherId(id));
  }

  /** Replacing by an id that no record has leaves the list as it is. */
  lemma {:induction false} ReplaceAbsentId(meds: seq<Medicine>, id: string, rec: Medicine)
    requires forall m :: m in meds ==> m.id != id
    ensures ReplaceById(meds, id, rec) == meds
  {
    var r := ReplaceById(meds, id, rec);
    assert forall i :: 0 <= i < |meds| ==> r[i] == meds[i];
  }

  /** Removing after replacing by the same id (when the returned record keeps
      the id) is the same as removing: an update never resurrects or duplicates. */
  lemma {:induction false} RemoveAfterReplace(meds: seq<Medicine>, id: string, rec: Medicine)
    requires rec.id == id
    ensures RemoveById(ReplaceById(meds, id, rec), id) == RemoveById(meds, id)
    decreases |meds|
  {
    if meds != [] {
      RemoveAfterReplace(meds[1..], id, rec);
      var r := ReplaceById(meds, id, rec);
      assert r[1..] == ReplaceById(meds[1..], id, rec);
    }
  }

  class MedicineRegistry {
    var medicines: seq<Medicine>
    var loading: bool

    constructor ()
      ensures medicines == [] && loading
    {
      medicines := [];
      loading := true;
    }

    /** `fetchMedicines`: `user` is the signed-in user's id, if any; `outcome`
        the store's answer, whose data may be null. */
    method FetchMedicines(user: Option<string>, outcome: Remote<Option<seq<Medicine>>>)
      modifies this
      ensures user.None? ==> medicines == old(medicines) && loading == old(loading)
      ensures user.Some? ==> !loading
      ensures user.Some? && outcome.Ok? ==>
                medicines == (if outcome.data.Some? then outcome.data.value else [])
      ensures user.Some? && outcome.Err? ==> medicines == old(medicines)
    {
      if user.None? {
        return;
      }
      if outcome.Ok? {
        medicines := if outcome.data.Some? then outcome.data.value else [];
      }
      loading := false;
    }

    /** `addMedicine`: inserts the input with the owner's id attached. */
    method AddMedicine(user: Option<string>, input: MedicineInput, insert: NewRow -> Remote<Medicine>)
      returns (result: Option<Medicine>)
      modifies this
      ensures user.None? ==> result == None && medicines == old(medicines)
      ensures user.Some? && insert(NewRow(input, user.value)).Ok? ==>
                var rec := insert(NewRow(input, user.value)).data;
                result == Some(rec) && medicines == Prepend(old(medicines), rec)
      ensures user.Some? && insert(NewRow(input, user.value)).Err? ==>
                result == None && medicines == old(medicines)
      ensures loading == old(loading)
    {
      if user.None? {
        return None;
      }
      var outcome := insert(NewRow(input, user.value));
      match outcome {
        case Ok(rec) =>
          medicines := Prepend(medicines, rec);
          return Some(rec);
        case Err(_) =>
          return None;
      }
    }

    /** `updateMedicine`: the store's returned record replaces every record with the id. */
    method UpdateMedicine(id: string, input: MedicineInput, update: (string, MedicineInput) -> Remote<Medicine>)
      returns (result: Option<Medicine>)
      modifies this
      ensures update(id, input).Ok? ==>
                result == Some(update(id, input).data) &&
                medicines == ReplaceById(old(medicines), id, update(id, input).data)
      ensures update(id, input).Err? ==> result == None && medicines == old(medicines)
      ensures loading == old(loading)
    {
      var outcome := update(id, input);
      match outcome {
        case Ok(rec) =>
          medicines := ReplaceById(medicines, id, rec);
          return Some(rec);
        case Err(_) =>
          return None;
      }
    }

    /** `deleteMedicine`: true exactly when the store confirmed the delete. */
    method DeleteMedicine(id: string, delete: string -> Remote<()>) returns (deleted: bool)
      modifies this
      ensures deleted <==> delete(id).Ok?
      ensures medicines == if deleted then RemoveById(old(medicines), id) else old(medicines)
      ensures loading == old(loading)
    {
      var outcome := delete(id);
      if outcome.Err? {
        return false;
      }
      medicines := RemoveById(medicines, id);
      return true;
    }
  }
}
