/**
 * The digital khata (sales ledger): the beneficiary logs daily sales, newest
 * first. The screen shows the total earnings and the trust score computed from
 * the number of entries.
 */
module Khata {
  import opened Records
  import opened Storage
  import TrustScore

  const DefaultDescription: string := "Daily Sale"

  predicate AllPositive(s: seq<KhataEntry>)
  {
    forall i :: 0 <= i < |s| ==> s[i].amount > 0.0
  }

  /**
   * `entries.reduce((sum, e) => sum + e.amount, 0)`: a left fold. A ledger of
   * positive amounts never totals below zero, and a non-empty one totals
   * above zero.
   */
  function Total(s: seq<KhataEntry>): (r: real)
    ensures AllPositive(s) ==> r >= 0.0
    ensures AllPositive(s) && s != [] ==> r > 0.0
  {
    if s == [] then 0.0
    else
      var p := s[..|s| - 1];
      assert AllPositive(s) ==> AllPositive(p) by {
        if AllPositive(s) {
          forall i | 0 <= i < |p| ensures p[i].amount > 0.0 {
            assert p[i] == s[i];
          }
        }
      }
      Total(p) + s[|s| - 1].amount
  }

  /** Prepending an entry raises the total by exactly its amount. */
  lemma {:induction false} TotalPrepend(e: KhataEntry, s: seq<KhataEntry>)
    ensures Total([e] + s) == e.amount + Total(s)
  {
    if s == [] {
      assert [e] + s == [e];
      assert [e][..0] == [];
    } else {
      var t := [e] + s;
      assert t[..|t| - 1] == [e] + s[..|s| - 1];
      assert t[|t| - 1] == s[|s| - 1];
      TotalPrepend(e, s[..|s| - 1]);
    }
  }

  /** With positive amounts the total is at least every single amount in the ledger. */
  lemma {:induction false} TotalOfPositive(s: seq<KhataEntry>)
    requires AllPositive(s)
    ensures forall i :: 0 <= i < |s| ==> Total(s) >= s[i].amount
  {
    if s != [] {
      var p := s[..|s| - 1];
      assert AllPositive(p) by {
        forall i | 0 <= i < |p| ensures p[i].amount > 0.0 {
          assert p[i] == s[i];
        }
      }
      TotalOfPositive(p);
      forall i | 0 <= i < |s| ensures Total(s) >= s[i].amount {
        if i < |p| {
          assert s[i] == p[i];
        }
      }
    }
  }

  /** The amount guard: a filled-in field whose value is strictly positive. */
  predicate AmountValid(amount: Option<real>)
  {
    amount.Some? && amount.value > 0.0
  }

  /** An empty field, zero and negative amounts are refused; a fractional sale such as 0.5 is accepted. */
  lemma AmountGuardCases()
    ensures !AmountValid(None) && !AmountValid(Some(0.0)) && !AmountValid(Some(-10.0))
    ensures AmountValid(Some(0.5)) && AmountValid(Some(150.0))
  {
  }

  /** `description || 'Daily Sale'`. */
  function EntryDescription(description: string): (r: string)
    ensures r != ""
    ensures description != "" ==> r == description
    ensures description == "" ==> r == DefaultDescription
  {
    if description == "" then DefaultDescription else description
  }

  class KhataScreen {
    var entries: seq<KhataEntry>
    /** The amount field; None while it is empty. */
    var amount: Option<real>
    var description: string
    var showForm: bool

    constructor ()
      ensures entries == [] && amount == None && description == "" && !showForm
    {
      entries := [];
      amount := None;
      description := "";
      showForm := false;
    }

    /** Total earnings as shown on screen: at least any single sale when all sales are positive. */
    function TotalEarnings(): (r: real)
      reads this
      ensures AllPositive(entries) ==> forall i :: 0 <= i < |entries| ==> r >= entries[i].amount
    {
      if AllPositive(entries) then TotalOfPositive(entries); Total(entries) else Total(entries)
    }

    /** The trust score as shown on screen. */
    function Trust(): (r: int)
      reads this
      ensures 0 <= r <= TrustScore.MaxScore
      ensures r == TrustScore.DashboardScore(|entries|)
    {
      TrustScore.ScreensAgree(|entries|);
      TrustScore.KhataScore(|entries|)
    }

    /** `loadEntries`: a stored ledger replaces the shown one; a missing key leaves it as it is. */
    method LoadEntries(store: Store)
      requires store.Valid()
      modifies this
      ensures entries == if KhataEntriesKey in store.items then store.KhataEntries() else old(entries)
      ensures amount == old(amount) && description == old(description) && showForm == old(showForm)
    {
      if KhataEntriesKey in store.items {
        entries := store.KhataEntries();
      }
    }

    /**
     * `addEntry`. An empty or non-positive amount is rejected and nothing
     * changes. Otherwise the new entry goes first, the ledger is written back,
     * the form is cleared and hidden. `id` and `date` stand for `Date.now()`
     * and the current ISO time.
     */
    method AddEntry(store: Store, id: string, date: string) returns (added: bool)
      requires store.Valid()
      modifies this, store
      ensures store.Valid()
      ensures added <==> AmountValid(old(amount))
      ensures !added ==>
        && entries == old(entries) && amount == old(amount)
        && description == old(description) && showForm == old(showForm)
        && store.items == old(store.items)
      ensures added ==>
        && |entries| == |old(entries)| + 1
        && entries[0] == KhataEntry(id, old(amount).value, EntryDescription(old(description)), date)
        && entries[1..] == old(entries)
        && store.items == old(store.items)[KhataEntriesKey := KhataList(entries)]
        && store.KhataEntries() == entries
        && amount == None && description == "" && !showForm
        && Total(entries) == Total(old(entries)) + old(amount).value
        && TrustScore.KhataScore(|old(entries)|) <= TrustScore.KhataScore(|entries|)
      ensures AllPositive(old(entries)) ==> AllPositive(entries)
    {
      if amount.None? || amount.value <= 0.0 {
        return false;
      }
      var entry := KhataEntry(id, amount.value, EntryDescription(description), date);
      var updated := [entry] + entries;
      TotalPrepend(entry, entries);
      TrustScore.ScoreMonotonic(|entries|, |updated|);
      assert updated[1..] == entries;
      entries := updated;
      store.SetItem(KhataEntriesKey, KhataList(updated));
      amount := None;
      description := "";
      showForm := false;
      added := true;
    }
  }
}
