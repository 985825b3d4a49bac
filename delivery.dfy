/**
 * The enumerator's asset-delivery screen: a three-step flow. Step 1 checks the
 * beneficiary's OTP, step 2 scans the beneficiary QR code and the asset
 * barcode, step 3 records the delivery, but only while the device is
 * geo-locked to the village (within 500 m of its centre).
 */
module Delivery {
  import opened Records
  import opened Storage

  const DemoOtp: string := "123456"
  const MaxDistanceMeters: real := 500.0
  const BeneficiaryPrefix: string := "BEN-"
  const AssetPrefix: string := "AST-"

  /** The geo-fence test, boundary included. */
  predicate WithinGeoFence(distance: real)
  {
    distance <= MaxDistanceMeters
  }

  /** Standing on the village centre, or exactly on the boundary, counts as inside. */
  lemma GeoFenceBoundary()
    ensures WithinGeoFence(0.0) && WithinGeoFence(MaxDistanceMeters)
    ensures !WithinGeoFence(MaxDistanceMeters + 0.001)
  {
  }

  class DeliveryScreen {
    var step: int
    /** The OTP text field. */
    var otp: string
    var beneficiaryId: string
    var assetBarcode: string
    var location: Option<Coord>
    var isGeoLocked: bool

    /**
     * The steps run in order; step 3 is reached only with both codes scanned;
     * the geo-lock is only ever set from an obtained location.
     */
    ghost predicate Valid()
      reads this
    {
      && 1 <= step <= 3
      && (step == 3 ==> beneficiaryId != "" && assetBarcode != "")
      && (isGeoLocked ==> location.Some?)
    }

    constructor ()
      ensures Valid()
      ensures step == 1 && otp == "" && beneficiaryId == "" && assetBarcode == ""
      ensures location == None && !isGeoLocked
    {
      step := 1;
      otp := "";
      beneficiaryId := "";
      assetBarcode := "";
      location := None;
      isGeoLocked := false;
    }

    /**
     * `checkLocation`. Without a granted permission nothing changes (so the
     * geo-lock stays as it was, false on a fresh screen); otherwise the
     * position is kept and the lock reflects its `distance` from the village
     * centre. The Haversine distance itself is an input here.
     */
    method CheckLocation(granted: bool, position: Coord, distance: real)
      requires Valid()
      modifies this
      ensures Valid()
      ensures step == old(step) && otp == old(otp)
      ensures beneficiaryId == old(beneficiaryId) && assetBarcode == old(assetBarcode)
      ensures !granted ==> location == old(location) && isGeoLocked == old(isGeoLocked)
      ensures granted ==> location == Some(position) && (isGeoLocked <==> WithinGeoFence(distance))
    {
      if granted {
        location := Some(position);
        isGeoLocked := distance <= MaxDistanceMeters;
      }
    }

    /** `verifyOTP` (shown on step 1): only the demo OTP moves on to the scans. */
    method VerifyOtp() returns (accepted: bool)
      requires Valid() && step == 1
      modifies this
      ensures Valid()
      ensures accepted <==> old(otp) == DemoOtp
      ensures step == if accepted then 2 else 1
      ensures otp == old(otp) && beneficiaryId == old(beneficiaryId) && assetBarcode == old(assetBarcode)
      ensures location == old(location) && isGeoLocked == old(isGeoLocked)
    {
      accepted := otp == DemoOtp;
      if accepted {
        step := 2;
      }
    }

    /**
     * `simulateScan` (shown on step 2): a scanned code is its prefix followed
     * by a random suffix, which is an input here.
     */
    method SimulateScan(beneficiary: bool, suffix: string)
      requires Valid() && step == 2
      modifies this
      ensures Valid()
      ensures beneficiary ==> beneficiaryId == BeneficiaryPrefix + suffix && assetBarcode == old(assetBarcode)
      ensures !beneficiary ==> assetBarcode == AssetPrefix + suffix && beneficiaryId == old(beneficiaryId)
      ensures beneficiaryId != "" || assetBarcode != ""
      ensures step == old(step) && otp == old(otp)
      ensures location == old(location) && isGeoLocked == old(isGeoLocked)
    {
      if beneficiary {
        beneficiaryId := BeneficiaryPrefix + suffix;
      } else {
        assetBarcode := AssetPrefix + suffix;
      }
    }

    /** The "Continue" button of step 2, present only once both codes are scanned. */
    method Continue() returns (advanced: bool)
      requires Valid() && step == 2
      modifies this
      ensures Valid()
      ensures advanced <==> beneficiaryId != "" && assetBarcode != ""
      ensures step == if advanced then 3 else 2
      ensures otp == old(otp) && beneficiaryId == old(beneficiaryId) && assetBarcode == old(assetBarcode)
      ensures location == old(location) && isGeoLocked == old(isGeoLocked)
    {
      advanced := beneficiaryId != "" && assetBarcode != "";
      if advanced {
        step := 3;
      }
    }

    /**
     * `handleDeliver`. Without the geo-lock nothing is written; otherwise one
     * `DELIVERED` record with the scanned codes and the position is appended to
     * the stored deliveries (a missing key read as empty). `id` and `timestamp`
     * stand for `Date.now()` and the current ISO time.
     */
    method HandleDeliver(store: Store, id: string, timestamp: string) returns (delivered: bool)
      requires Valid() && store.Valid()
      modifies store
      ensures store.Valid()
      ensures delivered <==> isGeoLocked
      ensures !delivered ==> store.items == old(store.items)
      ensures delivered ==>
        var record := DeliveryRecord(id, beneficiaryId, assetBarcode, location, timestamp, Delivered);
        && store.items == old(store.items)[DeliveriesKey := DeliveryList(old(store.Deliveries()) + [record])]
        && store.Deliveries() == old(store.Deliveries()) + [record]
        && record.gps.Some?
      ensures delivered && step == 3 ==> beneficiaryId != "" && assetBarcode != ""
    {
      if !isGeoLocked {
        return false;
      }
      var record := DeliveryRecord(id, beneficiaryId, assetBarcode, location, timestamp, Delivered);
      var deliveries := store.Deliveries();
      deliveries := deliveries + [record];
      store.SetItem(DeliveriesKey, DeliveryList(deliveries));
      delivered := true;
    }
  }
}
