/**
 * The enumerator's "New Beneficiary" form: a record with a name, an Aadhaar
 * number and a photo is appended to the offline list as a pending upload.
 */
module AddBeneficiary {
  import opened Records
  import opened Storage
  import Sync

  /** The save guard: name, Aadhaar and photo are required; income is not checked. */
  predicate FormComplete(name: string, aadhaar: string, photo: Option<string>)
  {
    name != "" && aadhaar != "" && Present(photo)
  }

  /** The record `handleSave` builds from the form; it always starts out as one pending upload. */
  function NewRecord(id: int, name: string, aadhaar: string, income: string, photoUri: string, timestamp: string): (b: Beneficiary)
    ensures b.status == Pending && Sync.PendingCount([b]) == 1
  {
    var b := Beneficiary(id, name, aadhaar, income, photoUri, timestamp, Pending);
    assert [b][1..] == [];
    b
  }

  /**
   * `handleSave`. An incomplete form is rejected with storage untouched;
   * otherwise the stored list (empty when the key is missing) gets the new
   * pending record appended at its end and is written back.
   * `id` and `timestamp` stand for `Date.now()` and the current ISO time.
   */
  method HandleSave(store: Store, name: string, aadhaar: string, income: string, photo: Option<string>,
                    id: int, timestamp: string) returns (saved: bool)
    requires store.Valid()
    modifies store
    ensures store.Valid()
    ensures saved <==> FormComplete(name, aadhaar, photo)
    ensures !saved ==> store.items == old(store.items)
    ensures saved ==> store.items == old(store.items)[OfflineBeneficiariesKey := BeneficiaryList(store.Beneficiaries())]
    ensures saved ==>
      var added := store.Beneficiaries();
      && |added| == |old(store.Beneficiaries())| + 1
      && added[..|added| - 1] == old(store.Beneficiaries())
      && added[|added| - 1] == NewRecord(id, name, aadhaar, income, photo.value, timestamp)
      && added[|added| - 1].status == Pending
      && added[|added| - 1].income == income
      && Sync.PendingCount(added) == Sync.PendingCount(old(store.Beneficiaries())) + 1
    ensures saved && OfflineBeneficiariesKey !in old(store.items) ==>
      store.Beneficiaries() == [NewRecord(id, name, aadhaar, income, photo.value, timestamp)]
  {
    if !FormComplete(name, aadhaar, photo) {
      return false;
    }
    var record := NewRecord(id, name, aadhaar, income, photo.value, timestamp);
    var beneficiaries := store.Beneficiaries();
    Sync.PendingCountAppend(beneficiaries, record);
    beneficiaries := beneficiaries + [record];
    store.SetItem(OfflineBeneficiariesKey, BeneficiaryList(beneficiaries));
    saved := true;
  }
}
