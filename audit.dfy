/**
 * The enumerator's impact-audit screen: a four-step flow. Step 1 loads the
 * beneficiary's original survey (a fixed sample record), step 2 takes the
 * current income and previews the change, step 3 takes a photo, step 4 an
 * optional video; submitting appends the audit to the stored audits.
 */
module Audit {
  import opened Records
  import opened Storage

  /** The original survey data `loadBeneficiaryData` supplies for every beneficiary. */
  const SampleSurvey: Survey := Survey("Sunita Devi", 45000, "Artisan", "2024-01-15")

  /** `originalData?.income`. */
  function OriginalIncome(original: Option<Survey>): (r: Option<int>)
    ensures r.Some? <==> original.Some?
    ensures r.Some? ==> r.value == original.value.income
  {
    if original.Some? then Some(original.value.income) else None
  }

  /**
   * The stored change, `Number(currentIncome) - (originalData?.income || 0)`:
   * what has to be added to the original income to reach the current one,
   * a missing original counting as 0.
   */
  function IncomeChange(current: Option<int>, original: Option<Survey>): (r: int)
    ensures original.Some? ==> original.value.income + r == NumberOf(current)
    ensures original.None? ==> r == NumberOf(current)
  {
    NumberOf(current) - (if original.Some? then original.value.income else 0)
  }

  /** The change shown in step 2: 0 until both the original data and a current income exist. */
  function PreviewIncomeChange(original: Option<Survey>, current: Option<int>): (r: int)
    ensures original.Some? && current.Some? ==> r == IncomeChange(current, original)
    ensures original.None? || current.None? ==> r == 0
  {
    if original.Some? && current.Some? then current.value - original.value.income else 0
  }

  /**
   * The record `submitAudit` builds from the screen state. It balances:
   * original income + change == current income, a missing original counting
   * as 0; the evidence is passed through as it stands.
   */
  function NewAudit(id: string, beneficiaryId: string, original: Option<Survey>, current: Option<int>,
                    photo: Option<string>, videoUri: Option<string>, gps: Option<Coord>,
                    timestamp: string): (a: AuditRecord)
    ensures a.currentIncome == NumberOf(current)
    ensures a.originalIncome.Some? <==> original.Some?
    ensures original.Some? ==>
      a.originalIncome.value == original.value.income && a.originalIncome.value + a.incomeChange == a.currentIncome
    ensures original.None? ==> a.incomeChange == a.currentIncome
    ensures a.photoUri == photo && a.videoUri == videoUri && a.gps == gps
  {
    AuditRecord(id, beneficiaryId, OriginalIncome(original), NumberOf(current),
                IncomeChange(current, original), photo, videoUri, gps, timestamp)
  }

  class AuditScreen {
    var step: int
    /** The beneficiary ID or name typed in step 1 (not checked). */
    var beneficiaryId: string
    var originalData: Option<Survey>
    /** The current-income field; None while it is empty. */
    var currentIncome: Option<int>
    var photo: Option<string>
    var videoUri: Option<string>
    var location: Option<Coord>

    /** Steps run in order, and each has what the steps before it collected. */
    ghost predicate Valid()
      reads this
    {
      && 1 <= step <= 4
      && (step >= 2 ==> originalData == Some(SampleSurvey))
      && (step >= 3 ==> currentIncome.Some?)
      && (step == 4 ==> Present(photo))
    }

    constructor ()
      ensures Valid() && step == 1 && beneficiaryId == ""
      ensures originalData == None && currentIncome == None
      ensures photo == None && videoUri == None && location == None
    {
      step := 1;
      beneficiaryId := "";
      originalData := None;
      currentIncome := None;
      photo := None;
      videoUri := None;
      location := None;
    }

    /** `getLocation`: the position is kept only when permission is granted. */
    method GetLocation(granted: bool, position: Coord)
      requires Valid()
      modifies this`location
      ensures Valid()
      ensures location == if granted then Some(position) else old(location)
    {
      if granted {
        location := Some(position);
      }
    }

    /** The change previewed in step 2. */
    function Preview(): (r: int)
      reads this
      requires Valid()
      ensures step >= 2 && currentIncome.Some? ==> r == currentIncome.value - SampleSurvey.income
      ensures currentIncome.None? || originalData.None? ==> r == 0
    {
      PreviewIncomeChange(originalData, currentIncome)
    }

    /** `loadBeneficiaryData` (step 1): loads the sample survey, whatever ID was typed. */
    method LoadBeneficiaryData()
      requires Valid() && step == 1
      modifies this`originalData, this`step
      ensures Valid()
      ensures originalData == Some(SampleSurvey) && originalData.value.income == 45000
      ensures step == 2
    {
      originalData := Some(SampleSurvey);
      step := 2;
    }

    /** "Next: Evidence" (step 2), enabled only once a current income is entered. */
    method NextToEvidence() returns (advanced: bool)
      requires Valid() && step == 2
      modifies this`step
      ensures Valid()
      ensures advanced <==> currentIncome.Some?
      ensures step == if advanced then 3 else 2
    {
      advanced := currentIncome.Some?;
      if advanced {
        step := 3;
      }
    }

    /** "Next: Video" (step 3), offered only once a photo is captured. */
    method NextToVideo() returns (advanced: bool)
      requires Valid() && step == 3
      modifies this`step
      ensures Valid()
      ensures advanced <==> Present(photo)
      ensures step == if advanced then 4 else 3
    {
      advanced := Present(photo);
      if advanced {
        step := 4;
      }
    }

    /** "Submit Audit" is enabled only with a recorded video; "Skip Video" always is. */
    predicate SubmitEnabled()
      reads this
    {
      Present(videoUri)
    }

    /**
     * `submitAudit`, behind both "Submit Audit" and "Skip Video": the audit is
     * appended to the stored audits (a missing key read as empty). The video
     * is whatever is recorded, so "Skip Video" after a recording still submits
     * it, and a press of the enabled "Submit Audit" always carries one. `id`
     * and `timestamp` stand for `Date.now()` and the current ISO time.
     */
    method SubmitAudit(store: Store, id: string, timestamp: string)
      requires Valid() && store.Valid()
      modifies store
      ensures store.Valid()
      ensures var record := NewAudit(id, beneficiaryId, originalData, currentIncome, photo, videoUri, location, timestamp);
        && store.items == old(store.items)[AuditsKey := AuditList(old(store.Audits()) + [record])]
        && store.Audits() == old(store.Audits()) + [record]
        && record.videoUri == videoUri
        && (SubmitEnabled() ==> Present(record.videoUri))
        && (step == 4 ==>
              && record.incomeChange == currentIncome.value - SampleSurvey.income
              && record.originalIncome == Some(SampleSurvey.income)
              && Present(record.photoUri))
    {
      var audit := NewAudit(id, beneficiaryId, originalData, currentIncome, photo, videoUri, location, timestamp);
      var audits := store.Audits();
      audits := audits + [audit];
      store.SetItem(AuditsKey, AuditList(audits));
    }
  }
}
