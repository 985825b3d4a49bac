/**
 * The device's key-value store (AsyncStorage). Every collection is one key
 * holding a whole serialized value; a write replaces the value of one key.
 * Serialization is abstracted away: a key holds a typed value directly.
 */
module Storage {
  import opened Records

  const OfflineBeneficiariesKey: string := "offline_beneficiaries"
  const PendingApplicationsKey: string := "pending_applications"
  const BeneficiaryApplicationKey: string := "beneficiary_application"
  const KhataEntriesKey: string := "khata_entries"
  const AuditsKey: string := "audits"
  const DeliveriesKey: string := "deliveries"

  /** What a key can hold: one of the app's collections, or the single self application. */
  datatype StoredValue =
    | BeneficiaryList(beneficiaries: seq<Beneficiary>)
    | ApplicationList(applications: seq<Application>)
    | ApplicationRecord(application: Application)
    | KhataList(entries: seq<KhataEntry>)
    | AuditList(audits: seq<AuditRecord>)
    | DeliveryList(deliveries: seq<DeliveryRecord>)

  /** Each key the app uses is only ever written with values of one shape. */
  predicate WellTyped(key: string, v: StoredValue)
  {
    && (key == OfflineBeneficiariesKey ==> v.BeneficiaryList?)
    && (key == PendingApplicationsKey ==> v.ApplicationList?)
    && (key == BeneficiaryApplicationKey ==> v.ApplicationRecord?)
    && (key == KhataEntriesKey ==> v.KhataList?)
    && (key == AuditsKey ==> v.AuditList?)
    && (key == DeliveriesKey ==> v.DeliveryList?)
  }

  class Store {
    var items: map<string, StoredValue>

    ghost predicate Valid()
      reads this
    {
      forall k :: k in items ==> WellTyped(k, items[k])
    }

    constructor ()
      ensures Valid() && items == map[]
    {
      items := map[];
    }

    /** `getItem('offline_beneficiaries')`, with a missing key read as an empty list. */
    function Beneficiaries(): (r: seq<Beneficiary>)
      reads this
      requires Valid()
      ensures OfflineBeneficiariesKey !in items ==> r == []
      ensures OfflineBeneficiariesKey in items ==> items[OfflineBeneficiariesKey] == BeneficiaryList(r)
    {
      if OfflineBeneficiariesKey in items then items[OfflineBeneficiariesKey].beneficiaries else []
    }

    /** `getItem('pending_applications')`, with a missing key read as an empty list. */
    function PendingApplications(): (r: seq<Application>)
      reads this
      requires Valid()
      ensures PendingApplicationsKey !in items ==> r == []
      ensures PendingApplicationsKey in items ==> items[PendingApplicationsKey] == ApplicationList(r)
    {
      if PendingApplicationsKey in items then items[PendingApplicationsKey].applications else []
    }

    /** `getItem('beneficiary_application')`: the device's own application, if any. */
    function SelfApplication(): (r: Option<Application>)
      reads this
      requires Valid()
      ensures r.None? <==> BeneficiaryApplicationKey !in items
      ensures r.Some? ==> items[BeneficiaryApplicationKey] == ApplicationRecord(r.value)
    {
      if BeneficiaryApplicationKey in items then Some(items[BeneficiaryApplicationKey].application) else None
    }

    /** `getItem('khata_entries')`, with a missing key read as an empty list. */
    function KhataEntries(): (r: seq<KhataEntry>)
      reads this
      requires Valid()
      ensures KhataEntriesKey !in items ==> r == []
      ensures KhataEntriesKey in items ==> items[KhataEntriesKey] == KhataList(r)
    {
      if KhataEntriesKey in items then items[KhataEntriesKey].entries else []
    }

    /** `getItem('audits')`, with a missing key read as an empty list. */
    function Audits(): (r: seq<AuditRecord>)
      reads this
      requires Valid()
      ensures AuditsKey !in items ==> r == []
      ensures AuditsKey in items ==> items[AuditsKey] == AuditList(r)
    {
      if AuditsKey in items then items[AuditsKey].audits else []
    }

    /** `getItem('deliveries')`, with a missing key read as an empty list. */
    function Deliveries(): (r: seq<DeliveryRecord>)
      reads this
      requires Valid()
      ensures DeliveriesKey !in items ==> r == []
      ensures DeliveriesKey in items ==> items[DeliveriesKey] == DeliveryList(r)
    {
      if DeliveriesKey in items then items[DeliveriesKey].deliveries else []
    }

    /**
     * `setItem(key, value)`: one atomic single-key overwrite. Reading the
     * written key back gives the value written; every other key reads as it
     * did before.
     */
    method SetItem(key: string, v: StoredValue)
      requires Valid() && WellTyped(key, v)
      modifies this
      ensures Valid()
      ensures items == old(items)[key := v]
      ensures Beneficiaries() == if key == OfflineBeneficiariesKey then v.beneficiaries else old(Beneficiaries())
      ensures PendingApplications() == if key == PendingApplicationsKey then v.applications else old(PendingApplications())
      ensures SelfApplication() == if key == BeneficiaryApplicationKey then Some(v.application) else old(SelfApplication())
      ensures KhataEntries() == if key == KhataEntriesKey then v.entries else old(KhataEntries())
      ensures Audits() == if key == AuditsKey then v.audits else old(Audits())
      ensures Deliveries() == if key == DeliveriesKey then v.deliveries else old(Deliveries())
    {
      items := items[key := v];
    }

    /**
     * `removeItem(key)`: the removed key reads as missing (the empty
     * collection); every other key reads as it did before.
     */
    method RemoveItem(key: string)
      requires Valid()
      modifies this
      ensures Valid()
      ensures items == old(items) - {key}
      ensures Beneficiaries() == if key == OfflineBeneficiariesKey then [] else old(Beneficiaries())
      ensures PendingApplications() == if key == PendingApplicationsKey then [] else old(PendingApplications())
      ensures SelfApplication() == if key == BeneficiaryApplicationKey then None else old(SelfApplication())
      ensures KhataEntries() == if key == KhataEntriesKey then [] else old(KhataEntries())
      ensures Audits() == if key == AuditsKey then [] else old(Audits())
      ensures Deliveries() == if key == DeliveriesKey then [] else old(Deliveries())
    {
      items := items - {key};
    }
  }
}
