/**
 * The sync screen: it loads the offline beneficiary records, reports how many
 * are still pending, and uploads them all at once. Pressing "Sync Now" runs
 * two guards in order (network, then a non-empty list), marks the screen busy
 * and starts a simulated upload; when the upload finishes every record is
 * marked synced and the whole list is written back under one key.
 */
module Sync {
  import opened Records
  import opened Storage

  /** What a press of "Sync Now" leads to. */
  datatype SyncOutcome = NoInternet | NothingToSync | Uploading

  /** The two guards of the sync button, in the order they are checked. */
  function SyncGuard(connected: bool, count: nat): (r: SyncOutcome)
    ensures r == Uploading <==> connected && count > 0
    ensures r == NoInternet <==> !connected
  {
    if !connected then NoInternet
    else if count == 0 then NothingToSync
    else Uploading
  }

  /** Without network the answer is "No Internet", even when there is nothing to sync. */
  lemma NetworkCheckedFirst()
    ensures SyncGuard(false, 0) == NoInternet
    ensures SyncGuard(true, 0) == NothingToSync
  {
  }

  /** `a` and `b` agree on every field except possibly the upload status. */
  predicate SameExceptStatus(a: Beneficiary, b: Beneficiary)
  {
    && a.id == b.id && a.name == b.name && a.aadhaar == b.aadhaar
    && a.income == b.income && a.photoUri == b.photoUri && a.timestamp == b.timestamp
  }

  predicate AllSynced(s: seq<Beneficiary>)
  {
    forall i :: 0 <= i < |s| ==> s[i].status == Synced
  }

  /** `list.map(item => ({ ...item, status: 'synced' }))`. */
  function MarkAllSynced(s: seq<Beneficiary>): (r: seq<Beneficiary>)
    ensures |r| == |s| && AllSynced(r)
    ensures forall i :: 0 <= i < |s| ==> SameExceptStatus(r[i], s[i])
  {
    seq(|s|, i requires 0 <= i < |s| => s[i].(status := Synced))
  }

  /** `list.filter(b => b.status === 'pending').length`: never more than the list's length. */
  function PendingCount(s: seq<Beneficiary>): (r: nat)
    ensures r <= |s|
  {
    if s == [] then 0
    else (if s[0].status == Pending then 1 else 0) + PendingCount(s[1..])
  }

  /** Nothing is pending exactly when every record is synced. */
  lemma {:induction false} NoPendingIffAllSynced(s: seq<Beneficiary>)
    ensures PendingCount(s) == 0 <==> AllSynced(s)
  {
    if s != [] {
      NoPendingIffAllSynced(s[1..]);
      assert AllSynced(s) <==> s[0].status == Synced && AllSynced(s[1..]) by {
        if s[0].status == Synced && AllSynced(s[1..]) {
          forall i | 0 <= i < |s| ensures s[i].status == Synced {
            if i > 0 { assert s[i] == s[1..][i - 1]; }
          }
        }
      }
    }
  }

  /** Appending a record raises the pending count by one exactly when it is pending. */
  lemma {:induction false} PendingCountAppend(s: seq<Beneficiary>, b: Beneficiary)
    ensures PendingCount(s + [b]) == PendingCount(s) + (if b.status == Pending then 1 else 0)
  {
    if s == [] {
      assert [] + [b] == [b];
    } else {
      assert (s + [b])[1..] == s[1..] + [b];
      PendingCountAppend(s[1..], b);
    }
  }

  /** After a sync the pending counter shows 0. */
  lemma SyncClearsPending(s: seq<Beneficiary>)
    ensures PendingCount(MarkAllSynced(s)) == 0
  {
    NoPendingIffAllSynced(MarkAllSynced(s));
  }

  /** Syncing an already synced list changes nothing. */
  lemma SyncIdempotent(s: seq<Beneficiary>)
    requires AllSynced(s)
    ensures MarkAllSynced(s) == s
  {
    var r := MarkAllSynced(s);
    forall i | 0 <= i < |s| ensures r[i] == s[i] {
      assert SameExceptStatus(r[i], s[i]) && r[i].status == s[i].status;
    }
  }

  class SyncScreen {
    /** The list shown on screen. */
    var beneficiaries: seq<Beneficiary>
    /** True while the simulated upload runs; it disables the sync button. */
    var isSyncing: bool
    /** The list the running upload was started with (captured by its timer callback). */
    var batch: seq<Beneficiary>

    constructor ()
      ensures beneficiaries == [] && !isSyncing && batch == []
    {
      beneficiaries := [];
      isSyncing := false;
      batch := [];
    }

    /** The "Pending Uploads" counter. */
    function PendingUploads(): (r: nat)
      reads this
      ensures r <= |beneficiaries|
      ensures r == 0 <==> AllSynced(beneficiaries)
    {
      NoPendingIffAllSynced(beneficiaries);
      PendingCount(beneficiaries)
    }

    /** The sync button is disabled while an upload runs. */
    predicate SyncEnabled()
      reads this
    {
      !isSyncing
    }

    /** `loadOfflineData`: a stored list replaces the shown one; a missing key leaves it as it is. */
    method LoadOfflineData(store: Store)
      requires store.Valid()
      modifies this
      ensures beneficiaries == if OfflineBeneficiariesKey in store.items then store.Beneficiaries() else old(beneficiaries)
      ensures isSyncing == old(isSyncing) && batch == old(batch)
    {
      if OfflineBeneficiariesKey in store.items {
        beneficiaries := store.Beneficiaries();
      }
    }

    /**
     * `handleSync`, up to the start of the simulated upload. Neither guard
     * touches the list, the busy flag or storage.
     */
    method HandleSync(connected: bool) returns (outcome: SyncOutcome)
      requires SyncEnabled()
      modifies this
      ensures outcome == SyncGuard(connected, |beneficiaries|)
      ensures beneficiaries == old(beneficiaries)
      ensures isSyncing <==> outcome == Uploading
      ensures batch == if outcome == Uploading then beneficiaries else old(batch)
    {
      if !connected {
        return NoInternet;
      }
      if |beneficiaries| == 0 {
        return NothingToSync;
      }
      isSyncing := true;
      batch := beneficiaries;
      outcome := Uploading;
    }

    /**
     * The timer callback of `handleSync`: every record of the batch becomes
     * synced, on screen and in storage, and the busy flag is cleared.
     */
    method CompleteUpload(store: Store)
      requires isSyncing && store.Valid()
      modifies this, store
      ensures beneficiaries == MarkAllSynced(old(batch)) && batch == old(batch)
      ensures !isSyncing
      ensures store.Valid()
      ensures store.items == old(store.items)[OfflineBeneficiariesKey := BeneficiaryList(beneficiaries)]
      ensures store.Beneficiaries() == beneficiaries
    {
      var updated := MarkAllSynced(batch);
      beneficiaries := updated;
      store.SetItem(OfflineBeneficiariesKey, BeneficiaryList(updated));
      isSyncing := false;
    }

    /** `clearData`: removes the key and empties the shown list. */
    method ClearData(store: Store)
      requires store.Valid()
      modifies this, store
      ensures store.Valid()
      ensures store.items == old(store.items) - {OfflineBeneficiariesKey}
      ensures store.Beneficiaries() == [] && beneficiaries == []
      ensures isSyncing == old(isSyncing) && batch == old(batch)
    {
      store.RemoveItem(OfflineBeneficiariesKey);
      beneficiaries := [];
    }
  }

  /**
   * A whole sync as the user sees it: press the button, let the upload finish.
   * With no network or no records nothing changes and nothing is written;
   * otherwise every record is synced, the beneficiaries key holds exactly the
   * shown list, no other key changes and the counter drops to 0.
   */
  method SyncNow(screen: SyncScreen, store: Store, connected: bool) returns (outcome: SyncOutcome)
    requires screen.SyncEnabled() && store.Valid()
    modifies screen, store
    ensures outcome == SyncGuard(connected, |old(screen.beneficiaries)|)
    ensures !screen.isSyncing && store.Valid()
    ensures outcome != Uploading ==>
      screen.beneficiaries == old(screen.beneficiaries) && store.items == old(store.items)
    ensures outcome != Uploading ==> screen.batch == old(screen.batch)
    ensures outcome == Uploading ==>
      && screen.beneficiaries == MarkAllSynced(old(screen.beneficiaries))
      && screen.batch == old(screen.beneficiaries)
      && store.items == old(store.items)[OfflineBeneficiariesKey := BeneficiaryList(screen.beneficiaries)]
      && store.Beneficiaries() == screen.beneficiaries
      && screen.PendingUploads() == 0
  {
    outcome := screen.HandleSync(connected);
    if outcome == Uploading {
      screen.CompleteUpload(store);
      SyncClearsPending(old(screen.beneficiaries));
    }
  }
}
