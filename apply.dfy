/**
 * The beneficiary's scheme application form. A valid application is added to
 * the shared pending list that enumerators review, and is also kept as the
 * device's own application record. The Aadhaar number is shown masked.
 */
module Apply {
  import opened Records
  import opened Storage

  const MaskPrefix: string := "XXXX-XXXX-"
  const AadhaarLength: nat := 12

  /** `s.slice(-4)`: the last four characters, or all of a shorter string. */
  function LastFour(s: string): (r: string)
    ensures |s| >= 4 ==> |r| == 4 && s == s[..|s| - 4] + r
    ensures |s| < 4 ==> r == s
  {
    if |s| >= 4 then s[|s| - 4..] else s
  }

  /** The masked Aadhaar number: a fixed redaction followed by the last four characters. */
  function Mask(aadhaar: string): (r: string)
    ensures |r| >= |MaskPrefix| && r[..|MaskPrefix|] == MaskPrefix
    ensures r[|MaskPrefix|..] == LastFour(aadhaar)
    ensures |aadhaar| == AadhaarLength ==> |r| == 14 && r[|MaskPrefix|..] == aadhaar[8..]
  {
    MaskPrefix + LastFour(aadhaar)
  }

  /** `"123456789012"` is shown as `"XXXX-XXXX-9012"`. */
  lemma MaskExample()
    ensures Mask("123456789012") == "XXXX-XXXX-9012"
  {
    assert LastFour("123456789012") == "9012";
  }

  /** The mask reveals nothing of the first eight digits of a valid number. */
  lemma MaskHidesPrefix(a: string, b: string)
    requires |a| == AadhaarLength && |b| == AadhaarLength
    ensures Mask(a) == Mask(b) <==> a[8..] == b[8..]
  {
    if Mask(a) == Mask(b) {
      assert a[8..] == Mask(a)[|MaskPrefix|..] == Mask(b)[|MaskPrefix|..] == b[8..];
    }
  }

  datatype Rejection = MissingFields | InvalidAadhaar

  /**
   * The form checks of `handleSubmit`, in order: name, Aadhaar and phone are
   * required (the address is not); the Aadhaar must have exactly 12
   * characters (which characters is not checked).
   */
  function Validate(name: string, aadhaar: string, phone: string): (r: Option<Rejection>)
    ensures r == Some(MissingFields) <==> name == "" || aadhaar == "" || phone == ""
    ensures r == Some(InvalidAadhaar) <==> name != "" && aadhaar != "" && phone != "" && |aadhaar| != AadhaarLength
    ensures r == None <==> name != "" && phone != "" && |aadhaar| == AadhaarLength
  {
    if name == "" || aadhaar == "" || phone == "" then Some(MissingFields)
    else if |aadhaar| != AadhaarLength then Some(InvalidAadhaar)
    else None
  }

  /**
   * The application record built from a valid form: it awaits verification,
   * keeps the full number for the verifier, and shows only the redaction
   * followed by the last four characters.
   */
  function NewApplication(id: string, name: string, aadhaar: string, phone: string, address: string,
                          submittedAt: string): (app: Application)
    ensures app.status == PendingVerification && app.fullAadhaar == aadhaar
    ensures |app.aadhaar| >= |MaskPrefix| && app.aadhaar[..|MaskPrefix|] == MaskPrefix
    ensures app.aadhaar[|MaskPrefix|..] == LastFour(aadhaar)
    ensures |aadhaar| == AadhaarLength ==> |app.aadhaar| == 14 && app.aadhaar[|MaskPrefix|..] == aadhaar[8..]
  {
    Application(id, name, Mask(aadhaar), aadhaar, phone, address, PendingVerification, submittedAt)
  }

  /** Where, if anywhere, a storage call of the submission fails. */
  datatype StorageFault = NoFault | ReadFault | ListWriteFault | SelfWriteFault

  datatype SubmitOutcome = Refused(reason: Rejection) | Submitted | SubmitFailed

  class ApplyScreen {
    /** True while a submission runs; it disables the submit button. */
    var isSubmitting: bool

    constructor ()
      ensures !isSubmitting
    {
      isSubmitting := false;
    }

    /**
     * `handleSubmit`. A rejected form writes nothing. A valid one is appended to
     * the pending list (a missing key read as empty) and then overwrites the
     * self record; a storage fault stops it where it happens, so a fault on the
     * second write leaves the list written and the self record not. In every
     * case the busy flag is clear afterwards. `id` and `submittedAt` stand for
     * `Date.now()` and the current ISO time.
     */
    method HandleSubmit(store: Store, name: string, aadhaar: string, phone: string, address: string,
                        id: string, submittedAt: string, fault: StorageFault) returns (outcome: SubmitOutcome)
      requires store.Valid() && !isSubmitting
      modifies this, store
      ensures store.Valid() && !isSubmitting
      ensures Validate(name, aadhaar, phone).Some? <==> outcome.Refused?
      ensures outcome.Refused? ==> outcome.reason == Validate(name, aadhaar, phone).value
      ensures !outcome.Refused? ==> (outcome == Submitted <==> fault == NoFault)
      ensures outcome.Refused? || fault == ReadFault || fault == ListWriteFault ==>
        store.items == old(store.items)
      ensures outcome == Submitted ==>
        var app := NewApplication(id, name, aadhaar, phone, address, submittedAt);
        && store.items == old(store.items)[PendingApplicationsKey := ApplicationList(old(store.PendingApplications()) + [app])]
                                          [BeneficiaryApplicationKey := ApplicationRecord(app)]
        && store.PendingApplications() == old(store.PendingApplications()) + [app]
        && store.SelfApplication() == Some(app)
      ensures !outcome.Refused? && fault == SelfWriteFault ==>
        var app := NewApplication(id, name, aadhaar, phone, address, submittedAt);
        store.items == old(store.items)[PendingApplicationsKey := ApplicationList(old(store.PendingApplications()) + [app])]
    {
      var rejection := Validate(name, aadhaar, phone);
      if rejection.Some? {
        return Refused(rejection.value);
      }
      isSubmitting := true;
      var app := NewApplication(id, name, aadhaar, phone, address, submittedAt);
      if fault == ReadFault {
        outcome := SubmitFailed;
      } else {
        var applications := store.PendingApplications();
        applications := applications + [app];
        if fault == ListWriteFault {
          outcome := SubmitFailed;
        } else {
          store.SetItem(PendingApplicationsKey, ApplicationList(applications));
          if fault == SelfWriteFault {
            outcome := SubmitFailed;
          } else {
            store.SetItem(BeneficiaryApplicationKey, ApplicationRecord(app));
            outcome := Submitted;
          }
        }
      }
      isSubmitting := false;
    }
  }
}
