/**
 * The beneficiary dashboard: it shows the trust score computed from the
 * stored khata, the status of the beneficiary's own scheme application, and
 * unlocks the loan certificate from a score of 75.
 */
module Dashboard {
  import opened Records
  import opened Storage
  import TrustScore

  class DashboardScreen {
    var trustScore: int
    /** Status of the device's own application; None until one is found. */
    var applicationStatus: Option<VerificationStatus>

    constructor ()
      ensures trustScore == 0 && applicationStatus == None
    {
      trustScore := 0;
      applicationStatus := None;
    }

    /** The loan-certificate card is enabled (and navigable) only from a score of 75. */
    predicate LoanCertificateEnabled()
      reads this
    {
      trustScore >= TrustScore.LoanThreshold
    }

    /**
     * `loadData`. The score is recomputed from the stored number of entries
     * (a missing key counts as none); the application status is set only when
     * a self application is stored.
     */
    method LoadData(store: Store)
      requires store.Valid()
      modifies this
      ensures trustScore == TrustScore.DashboardScore(|store.KhataEntries()|)
      ensures 0 <= trustScore <= TrustScore.MaxScore
      ensures KhataEntriesKey !in store.items ==> trustScore == 0
      ensures LoanCertificateEnabled() <==> |store.KhataEntries()| >= TrustScore.BonusThreshold
      ensures applicationStatus ==
        if BeneficiaryApplicationKey in store.items then Some(store.SelfApplication().value.status)
        else old(applicationStatus)
    {
      var entries := store.KhataEntries();
      var n := |entries|;
      trustScore := TrustScore.DashboardScore(n);
      TrustScore.DashboardScoreIsScore(n);
      TrustScore.LoanUnlockedIffThreshold(n);
      TrustScore.EmptyLedgerScoresZero();
      var app := store.SelfApplication();
      if app.Some? {
        applicationStatus := Some(app.value.status);
      }
    }
  }
}
