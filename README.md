# Storage-backed record workflows of the field-data app, in Dafny

This project models the screens of a welfare-scheme field app that read a
collection from the device's key-value store (AsyncStorage), check the form
input, build a record and write the collection back:

- **Sync** (`app/sync.tsx`): the offline beneficiary list, its pending-upload
  counter, the "Sync Now" button guarded first by network reachability and
  then by a non-empty list, the busy flag `isSyncing`, the upload that marks
  every record `synced` and overwrites the key, and the clear-data reset.
- **New beneficiary** (`app/add-beneficiary.tsx`): name, Aadhaar and photo are
  required; the record is appended as `pending`.
- **Khata** (`app/beneficiary/khata.tsx`): amounts must be present and
  positive, the description defaults to `Daily Sale`, entries are kept newest
  first, with the total earnings and the trust score.
- **Dashboard** (`app/beneficiary/dashboard.tsx`): the trust score recomputed
  from the stored entry count, the application status, and the loan
  certificate unlocked from a score of 75.
- **Scheme application** (`app/beneficiary/apply.tsx`): required fields, a
  12-character Aadhaar, its masked form `XXXX-XXXX-` + last four, the
  `PENDING_VERIFICATION` record added to the shared pending list and stored as
  the device's own application, and the `isSubmitting` flag.
- **Delivery** (`app/enumerator/delivery.tsx`): the OTP / dual scan / confirm
  steps and the geo-lock guard on appending a `DELIVERED` record.
- **Impact audit** (`app/enumerator/audit.tsx`): the load / income / photo /
  video steps, the previewed and the stored income change, and the append to
  the stored audits.

## Structure

- `records.dfy` (module `Records`): the stored records as datatypes.
- `storage.dfy` (module `Storage`): class `Store` holding `items: map<string,
  StoredValue>`; its `Valid()` says that every key the app uses holds values of
  one shape. Reading a missing key gives the empty collection.
- `trust_score.dfy` (module `TrustScore`): the two trust-score formulas over
  exact reals with JavaScript's `Math.round` (`floor(x + 0.5)`), and their
  common integer closed form `n >= 30 ? 100 : (5n + 1) / 2`.
- One module per screen (`sync.dfy`, `add_beneficiary.dfy`, `khata.dfy`,
  `dashboard.dfy`, `apply.dfy`, `delivery.dfy`, `audit.dfy`). A screen whose
  handlers update React state is a class whose fields are that state; the
  store is passed to each handler. Text fields are public fields that the
  caller sets directly, as `onChangeText` does.

Modelling choices:

- A numeric text field is an `Option` of its parsed number: `None` is the
  empty field. The khata amount is an `Option<real>`, so fractional sales such
  as `0.5` pass the guard as in the source; the audit's current income is an
  `Option<int>`, and `Number('')` is 0 (`NumberOf`).
- The sync runs in two steps, as the source does: `HandleSync` checks the
  guards, sets `isSyncing` and keeps the list the timer callback captured;
  `CompleteUpload` is that callback, taken as one atomic step. The
  "Sync Now" button is disabled while `isSyncing` holds (`SyncEnabled`), so
  `HandleSync` requires it false. `SyncNow` composes a press and the finished
  upload. The trash button is not disabled during an upload, so a clear
  between the two steps is followed by the callback writing the captured list
  back, as in the source.
- The step-machine methods (`VerifyOtp`, `SimulateScan`, `Continue`,
  `LoadBeneficiaryData`, `NextToEvidence`, `NextToVideo`) require the step on
  which their button is rendered. `HandleDeliver` and `SubmitAudit` do not:
  they are specified from any step, and their contracts add what holds on the
  step where their button is rendered (step 3 and step 4). `SimulateScan` does
  not require its code to be empty either, although a scan button is rendered
  only while its code is empty; a rescan simply replaces the code. A button
  that is rendered but disabled, or rendered only when a condition holds, is
  a method that advances exactly when the condition holds (`Continue`,
  `NextToEvidence`, `NextToVideo`).
- Clocks (`Date.now()`, ISO timestamps), the network probe, the location
  permission and position, the Haversine distance, and the random scan
  suffixes are parameters of the methods that use them.
- Storage faults are modelled only for the scheme application, whose
  `finally` clears `isSubmitting` after a failure: a fault on the read or the
  first write leaves storage unchanged, a fault on the second write leaves the
  pending list written and the self record not. Every other handler is
  modelled with its storage calls succeeding (see "Left out").

## Model

| member | source | states |
|---|---|---|
| Storage.Store.SetItem | app/add-beneficiary.tsx:64-71 | a write replaces the value of exactly one key and keeps every key well-typed; reading the written key back gives the value written (the self application, or the list), and every other key reads as before |
| Storage.Store.RemoveItem | app/sync.tsx:64 | removing drops exactly one key; it then reads as a missing key (the empty list, or no self application), and every other key reads as before |
| Sync.SyncGuard | app/sync.tsx:33-42 | the upload starts iff connected and the list is non-empty; "No Internet" iff not connected, whatever the list |
| Sync.NetworkCheckedFirst | app/sync.tsx:33-42 | an empty list without network reports "No Internet", with network "No data" |
| Sync.MarkAllSynced | app/sync.tsx:50 | same length, every record `synced`, every other field of every record unchanged, in order |
| Sync.PendingCount | app/sync.tsx:89 | the pending counter never exceeds the number of records |
| Sync.NoPendingIffAllSynced | app/sync.tsx:89 | the pending counter is 0 exactly when every record is synced |
| Sync.PendingCountAppend | app/sync.tsx:89 | appending a record raises the counter by one exactly when the record is pending |
| Sync.SyncClearsPending | app/sync.tsx:50-54 | after a sync the pending counter is 0 |
| Sync.SyncIdempotent | app/sync.tsx:50 | syncing an all-synced list leaves it unchanged |
| Sync.SyncScreen.constructor | app/sync.tsx:11-12 | the screen starts with an empty list and not syncing |
| Sync.SyncScreen.PendingUploads | app/sync.tsx:87-90 | the counter is at most the list length, and 0 exactly when all records are synced |
| Sync.SyncScreen.LoadOfflineData | app/sync.tsx:19-28 | a stored list replaces the shown list; a missing key leaves it unchanged |
| Sync.SyncScreen.HandleSync | app/sync.tsx:31-45 | outcome is the guard result; the list is unchanged; `isSyncing` is set exactly when the upload starts, and the batch is the shown list |
| Sync.SyncScreen.CompleteUpload | app/sync.tsx:47-59 | the list becomes the batch with every record synced, the key is overwritten with exactly that list, nothing else in storage changes, `isSyncing` is false |
| Sync.SyncScreen.ClearData | app/sync.tsx:63-66 | the key is removed (reads as empty) and the shown list is empty |
| Sync.SyncNow | app/sync.tsx:31-60 | without network or records nothing changes and nothing is written; otherwise every record is synced, the beneficiaries key holds exactly the shown list and no other key changes, the batch is the list shown at the press, and the counter is 0; `isSyncing` is false again |
| AddBeneficiary.HandleSave | app/add-beneficiary.tsx:45-79 | saved iff name, Aadhaar and photo are present (the guard of line 46); a rejected save leaves storage unchanged; a save appends one `pending` record with the income as given, keeps every earlier record, changes no other key, raises the pending count by one, and on a device without the key yields a one-record list |
| AddBeneficiary.NewRecord | app/add-beneficiary.tsx:53-61 | a new record always starts as one pending upload |
| TrustScore.JsRound | app/beneficiary/khata.tsx:60 | `Math.round` gives the nearest integer, a half rounding up: `x - 0.5 < r <= x + 0.5` |
| TrustScore.KhataScore | app/beneficiary/khata.tsx:60 | the khata score (round, then clamp) lies in [0, 100] and is 100 from 30 entries on |
| TrustScore.DashboardScore | app/beneficiary/dashboard.tsx:22-23 | the dashboard score (clamp, then round) lies in [0, 100] and is 100 from 30 entries on |
| TrustScore.RoundTwoAndAHalf | app/beneficiary/khata.tsx:60 | `Math.round(2.5 n)` equals `(5n + 1) / 2` in integers |
| TrustScore.KhataScoreIsScore | app/beneficiary/khata.tsx:60 | the khata formula (round, then clamp) equals the integer closed form |
| TrustScore.DashboardScoreIsScore | app/beneficiary/dashboard.tsx:22-23 | the dashboard formula (clamp, then round) equals the integer closed form |
| TrustScore.ScreensAgree | app/beneficiary/dashboard.tsx:22-23 | both screens show the same score for every entry count |
| TrustScore.ScoreMonotonic | app/beneficiary/khata.tsx:60 | the score never decreases as entries are added |
| TrustScore.ScoreAtThreshold | app/beneficiary/dashboard.tsx:22-23 | 29 entries score 73 and 30 entries score 100 on both screens |
| TrustScore.EmptyLedgerScoresZero | app/beneficiary/dashboard.tsx:20-23 | no entries score 0 |
| TrustScore.LoanUnlockedIffThreshold | app/beneficiary/dashboard.tsx:110-112 | the score reaches 75 exactly when there are at least 30 entries |
| Khata.Total | app/beneficiary/khata.tsx:61 | a ledger of positive amounts totals at least 0, and more than 0 once it has an entry |
| Khata.TotalPrepend | app/beneficiary/khata.tsx:61 | the left-fold total of a ledger with an entry put first grows by exactly that entry's amount |
| Khata.TotalOfPositive | app/beneficiary/khata.tsx:61 | with positive amounts (fractional ones included) the total is at least every single amount in the ledger |
| Khata.AmountGuardCases | app/beneficiary/khata.tsx:38 | an empty field, 0 and negative amounts are refused; 0.5 and 150 are accepted |
| Khata.EntryDescription | app/beneficiary/khata.tsx:46 | the description is never empty: an empty one becomes `Daily Sale`, any other is kept |
| Khata.KhataScreen.constructor | app/beneficiary/khata.tsx:17-20 | no entries, empty form fields, form hidden |
| Khata.KhataScreen.TotalEarnings | app/beneficiary/khata.tsx:61 | the shown total is at least any single sale when all sales are positive |
| Khata.KhataScreen.Trust | app/beneficiary/khata.tsx:60 | the shown score is in [0, 100] and equals the dashboard's score for the same count |
| Khata.KhataScreen.LoadEntries | app/beneficiary/khata.tsx:26-35 | a stored ledger replaces the shown one; a missing key leaves it unchanged |
| Khata.KhataScreen.AddEntry | app/beneficiary/khata.tsx:37-58 | added iff the amount is present and positive (the guard of line 38); a rejection changes nothing; an add puts the new entry first, keeps the old entries after it, stores exactly the new ledger and no other key, clears and hides the form, raises the total by the amount, never lowers the score, and keeps all amounts positive |
| Dashboard.DashboardScreen.constructor | app/beneficiary/dashboard.tsx:10-11 | score 0 and no application status before loading |
| Dashboard.DashboardScreen.LoadData | app/beneficiary/dashboard.tsx:17-34 | the score is the dashboard formula of the stored entry count, in [0, 100], 0 without the key; the loan certificate is enabled iff there are at least 30 entries; the status is set only from a stored self application |
| Apply.LastFour | app/beneficiary/apply.tsx:32 | `slice(-4)`: the last four characters, or the whole of a shorter string |
| Apply.Mask | app/beneficiary/apply.tsx:32 | `XXXX-XXXX-` followed by the last four characters; 14 characters ending in the last four digits for a 12-character Aadhaar |
| Apply.MaskExample | app/beneficiary/apply.tsx:32 | `123456789012` is masked as `XXXX-XXXX-9012` |
| Apply.MaskHidesPrefix | app/beneficiary/apply.tsx:32-33 | two valid numbers have the same mask exactly when their last four digits agree |
| Apply.Validate | app/beneficiary/apply.tsx:17-25 | missing fields iff name, Aadhaar or phone is empty (address optional); invalid Aadhaar iff all are present and its length is not 12; accepted otherwise |
| Apply.NewApplication | app/beneficiary/apply.tsx:29-38 | the record awaits verification, keeps the full number, and shows `XXXX-XXXX-` followed by the last four characters (the last four digits for a 12-character number) |
| Apply.ApplyScreen.constructor | app/beneficiary/apply.tsx:14 | not submitting initially |
| Apply.ApplyScreen.HandleSubmit | app/beneficiary/apply.tsx:16-59 | refused with the validation reason and no write; on success the record (masked Aadhaar, full Aadhaar kept, `PENDING_VERIFICATION`) is appended to the pending list and overwrites the self record; a fault stops at the failing call; `isSubmitting` is false afterwards in every case |
| Delivery.GeoFenceBoundary | app/enumerator/delivery.tsx:40 | the geo-fence test `distance <= 500` includes distance 0 and exactly 500 m, and excludes anything beyond |
| Delivery.DeliveryScreen.constructor | app/enumerator/delivery.tsx:12-17 | step 1, empty fields, no location, not geo-locked |
| Delivery.DeliveryScreen.CheckLocation | app/enumerator/delivery.tsx:28-45 | without permission nothing changes; with it the position is kept and the lock holds iff the distance is at most 500 m |
| Delivery.DeliveryScreen.VerifyOtp | app/enumerator/delivery.tsx:60-67 | from step 1, moves to step 2 iff the OTP is `123456`, otherwise stays |
| Delivery.DeliveryScreen.SimulateScan | app/enumerator/delivery.tsx:69-76 | a scan sets the beneficiary ID to `BEN-` or the barcode to `AST-` followed by the suffix, leaving the other code |
| Delivery.DeliveryScreen.Continue | app/enumerator/delivery.tsx:185-189 | from step 2, moves to step 3 iff both codes are scanned |
| Delivery.DeliveryScreen.HandleDeliver | app/enumerator/delivery.tsx:78-105 | without the geo-lock nothing is written; with it one `DELIVERED` record with the scanned codes and the position is appended and earlier deliveries are kept |
| Audit.IncomeChange | app/enumerator/audit.tsx:93 | original income plus the change is the current income; without original data the change is the current income |
| Audit.PreviewIncomeChange | app/enumerator/audit.tsx:113-115 | the preview equals the stored change when both values are present, and is 0 otherwise |
| Audit.NewAudit | app/enumerator/audit.tsx:88-98 | the original income is present exactly when the original data is and is its income; every built record balances, original + change == current (change == current without an original); photo, video and position are passed through |
| Audit.AuditScreen.constructor | app/enumerator/audit.tsx:15-22 | step 1 with nothing collected |
| Audit.AuditScreen.GetLocation | app/enumerator/audit.tsx:28-38 | the position is kept only when permission is granted |
| Audit.AuditScreen.Preview | app/enumerator/audit.tsx:172-186 | from step 2, the shown change is the current income minus 45000; 0 while a value is missing |
| Audit.AuditScreen.LoadBeneficiaryData | app/enumerator/audit.tsx:40-50 | from step 1, loads the sample survey (income 45000) whatever ID was typed, and moves to step 2 |
| Audit.AuditScreen.NextToEvidence | app/enumerator/audit.tsx:192-196 | from step 2, moves to step 3 iff a current income is entered |
| Audit.AuditScreen.NextToVideo | app/enumerator/audit.tsx:208-229 | from step 3, moves to step 4 iff a photo was captured |
| Audit.AuditScreen.SubmitAudit | app/enumerator/audit.tsx:86-111 | one audit record is appended, earlier audits are kept and no other key changes; its video is whatever is recorded (so "Skip Video" after a recording still submits it, and a press of the enabled "Submit Audit" always carries one); from step 4 its change is the current income minus 45000 and it carries the photo |

## Left out

- Haversine distance and `deg2rad` (`app/enumerator/delivery.tsx:47-58`): floating-point trigonometry; the distance is an input and only the `<= 500` comparison is modelled.
- JSON serialisation and `Number(...)` parsing: a key holds a typed value, and numeric fields hold already-parsed numbers, so text that parses to `NaN` (which passes the khata amount check, since `NaN <= 0` is false) is not modelled.
- Audit.AuditScreen.SubmitAudit: the current income is an integer, so a fractional income typed into the audit form (`Number` accepts it at `app/enumerator/audit.tsx:92`) is not modelled.
- Storage faults outside the scheme application are not modelled; every other handler is modelled with its storage calls succeeding. In the source they behave as follows:
  - `handleSave`, `handleDeliver` and `submitAudit` catch a failure and only raise an alert, with storage unchanged.
  - The load handlers (`app/sync.tsx:25-27`, `app/beneficiary/khata.tsx:32-34`, `app/beneficiary/dashboard.tsx:31-33`) catch a failure and only log it. The screen keeps what was set before the failure: on the dashboard a failed second read leaves the new score and the old application status.
  - `clearData` (`app/sync.tsx:63-66`) has no `catch`: a failed removal leaves the key and the shown list as they were.
- Khata.KhataScreen.AddEntry: assumes the write succeeds. `addEntry` has no `catch` and replaces the shown ledger before writing (`app/beneficiary/khata.tsx:51-52`), so in the source a failed write leaves the new entry on screen but not stored, and the form is neither cleared nor hidden.
- Sync.SyncScreen.CompleteUpload: assumes the write succeeds. The timer callback has no `catch` (`app/sync.tsx:47-59`), so in the source a failed write leaves the list marked synced on screen but not in storage, and leaves `isSyncing` true, which keeps the sync button disabled. `!isSyncing` afterwards holds only when the write succeeds; the same applies to `Sync.SyncNow`.
- Apply.Validate: a string is a sequence of Unicode code points, while `aadhaar.length` (`app/beneficiary/apply.tsx:22`) counts UTF-16 code units, so an input with characters outside the Basic Multilingual Plane is counted differently; digit input is unaffected.
- Apply.LastFour: counts code points where `slice(-4)` counts UTF-16 code units (which can split a surrogate pair); digit input is unaffected.
- Apply.Mask: inherits the code-point count of `LastFour`; digit input is unaffected.
- The audit percentage (`app/enumerator/audit.tsx:187`) and all `toFixed` / `toLocaleString` formatting: floating point and display only.
- The 2-second `setTimeout` of the sync: the delay is not modelled; the callback is one atomic step.
- Camera, image picker, video recording and `isRecording`, camera and location permission prompts: the photo, video and position are values the caller puts into the screen's fields or passes in.
- Alerts, navigation (`router.back`, the loan-certificate route), styles, rendering and text-to-speech (`components/TextToSpeech.tsx`); `app/_layout.tsx` is a static route list and is not part of this model.
- Overlapping asynchronous handlers: every handler runs to completion before the next starts.
- Double-precision arithmetic: the trust-score formulas and the khata total are stated over exact reals. For the score these agree with doubles for every realistic entry count; a double-precision total of fractional amounts can differ from the exact sum by rounding.
