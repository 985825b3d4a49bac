/**
 * The records the field-data app keeps in device storage, and the small
 * value helpers the screens share.
 */
module Records {

  datatype Option<T> = None | Some(value: T)

  /** JavaScript truthiness of an optional text value: null and "" are falsy. */
  predicate Present(o: Option<string>)
  {
    o.Some? && o.value != ""
  }

  /** `Number(text)` for a numeric text field: the empty field reads as 0. */
  function NumberOf(field: Option<int>): (r: int)
    ensures field.None? ==> r == 0
    ensures field.Some? ==> r == field.value
  {
    match field
    case None => 0
    case Some(v) => v
  }

  /** A latitude/longitude pair as reported by the location provider. */
  datatype Coord = Coord(lat: real, lng: real)

  /** Upload state of an offline beneficiary record. */
  datatype SyncStatus = Pending | Synced

  /** A beneficiary surveyed offline by an enumerator (add-beneficiary screen). */
  datatype Beneficiary = Beneficiary(
    id: int,
    name: string,
    aadhaar: string,
    income: string,
    photoUri: string,
    timestamp: string,
    status: SyncStatus)

  /** Verification state of a scheme application. */
  datatype VerificationStatus = PendingVerification | Approved | Rejected

  /** A scheme application submitted by a beneficiary. */
  datatype Application = Application(
    id: string,
    name: string,
    aadhaar: string,        // the masked form shown to enumerators
    fullAadhaar: string,    // the full number, kept for verification
    phone: string,
    address: string,
    status: VerificationStatus,
    submittedAt: string)

  /** One sale in the beneficiary's digital ledger (khata). */
  datatype KhataEntry = KhataEntry(
    id: string,
    amount: real,           // `Number(amount)`: fractional amounts are accepted
    description: string,
    date: string)

  /** The original survey data an impact audit compares against. */
  datatype Survey = Survey(
    name: string,
    income: int,
    occupation: string,
    surveyDate: string)

  /** An impact audit recorded by an enumerator. */
  datatype AuditRecord = AuditRecord(
    id: string,
    beneficiaryId: string,
    originalIncome: Option<int>,
    currentIncome: int,
    incomeChange: int,
    photoUri: Option<string>,
    videoUri: Option<string>,
    gps: Option<Coord>,
    timestamp: string)

  /** The only status a delivery record is ever created with. */
  datatype DeliveryStatus = Delivered

  /** An asset handed over to a beneficiary. */
  datatype DeliveryRecord = DeliveryRecord(
    id: string,
    beneficiaryId: string,
    assetBarcode: string,
    gps: Option<Coord>,
    timestamp: string,
    status: DeliveryStatus)
}
