/**
 * The SELECTs the handlers decide on, and the batch of license rows that the
 * operator's bulk INSERT builds.
 */
module Queries {
  import opened Wrappers
  import opened Schema

  /** `WHERE token = value AND is_used = false AND expires_at > now` */
  predicate Redeemable(t: EnrollmentToken, value: string, now: int) {
    t.value == value && !t.isUsed && t.expiresAt > now
  }

  /** The first token that is redeemable now; absent exactly when none is. */
  function FindValidToken(ts: seq<EnrollmentToken>, value: string, now: int): (r: Option<nat>)
    ensures r.Some? ==> r.value < |ts| && Redeemable(ts[r.value], value, now)
    ensures r.Some? ==> forall j :: 0 <= j < r.value ==> !Redeemable(ts[j], value, now)
    ensures r.None? <==> forall j :: 0 <= j < |ts| ==> !Redeemable(ts[j], value, now)
  {
    FirstIndex(ts, (t: EnrollmentToken) => Redeemable(t, value, now))
  }

  /** `SELECT * FROM devices WHERE imei = $1` */
  function FindDevice(ds: seq<Device>, imei: string): (r: Option<nat>)
    ensures r.Some? ==> r.value < |ds| && ds[r.value].imei == imei
    ensures r.Some? ==> forall j :: 0 <= j < r.value ==> ds[j].imei != imei
    ensures r.None? <==> forall j :: 0 <= j < |ds| ==> ds[j].imei != imei
  {
    FirstIndex(ds, (d: Device) => d.imei == imei)
  }

  /** `WHERE device_imei = imei AND status = 'VINCULADA' AND reseller_id = rid` */
  predicate LinkedTo(l: License, imei: string, rid: nat) {
    l.deviceImei == Some(imei) && l.status == Vinculada && l.resellerId == rid
  }

  function FindLinkedLicense(ls: seq<License>, imei: string, rid: nat): (r: Option<nat>)
    ensures r.Some? ==> r.value < |ls| && LinkedTo(ls[r.value], imei, rid)
    ensures r.Some? ==> forall j :: 0 <= j < r.value ==> !LinkedTo(ls[j], imei, rid)
    ensures r.None? <==> forall j :: 0 <= j < |ls| ==> !LinkedTo(ls[j], imei, rid)
  {
    FirstIndex(ls, (l: License) => LinkedTo(l, imei, rid))
  }

  /** `WHERE reseller_id = rid AND status = 'DISPONIBLE' LIMIT 1` */
  predicate AvailableTo(l: License, rid: nat) {
    l.resellerId == rid && l.status == Disponible
  }

  function FindAvailableLicense(ls: seq<License>, rid: nat): (r: Option<nat>)
    ensures r.Some? ==> r.value < |ls| && AvailableTo(ls[r.value], rid)
    ensures r.Some? ==> forall j :: 0 <= j < r.value ==> !AvailableTo(ls[j], rid)
    ensures r.None? <==> forall j :: 0 <= j < |ls| ==> !AvailableTo(ls[j], rid)
  {
    FirstIndex(ls, (l: License) => AvailableTo(l, rid))
  }

  /** A freshly inserted license row: the schema's defaults are DISPONIBLE and no IMEI. */
  function Blank(key: nat, rid: nat): (r: License)
    ensures r.key == key && r.resellerId == rid
    ensures r.status == Disponible && r.deviceImei.None? && r.activatedAt.None?
  {
    License(key, rid, Disponible, None, None)
  }

  /** The `n` rows the operator's bulk INSERT adds for reseller `rid`, keys from `firstKey` on. */
  function Batch(firstKey: nat, rid: nat, n: nat): (r: seq<License>)
    ensures |r| == n
    ensures forall i :: 0 <= i < n ==>
      r[i].resellerId == rid && r[i].status == Disponible &&
      r[i].deviceImei.None? && r[i].activatedAt.None? && r[i].key == firstKey + i
  {
    if n == 0 then [] else Batch(firstKey, rid, n - 1) + [Blank(firstKey + n - 1, rid)]
  }

  /** Appending a batch of fresh keys keeps the license invariants. */
  lemma BatchKeepsInvariants(ls: seq<License>, nextKey: nat, rid: nat, n: nat)
    requires KeysIssued(ls, nextKey) && LicensesConsistent(ls)
    ensures KeysIssued(ls + Batch(nextKey, rid, n), nextKey + n)
    ensures LicensesConsistent(ls + Batch(nextKey, rid, n))
  {
  }

  /** Once spent, a token with a unique value can never be redeemed again, at any time. */
  lemma SpentTokenNotRedeemable(ts: seq<EnrollmentToken>, ti: nat, later: int)
    requires DistinctTokenValues(ts) && ti < |ts|
    ensures FindValidToken(ts[ti := ts[ti].(isUsed := true)], ts[ti].value, later).None?
  {
  }
}
