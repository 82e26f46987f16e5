/**
 * Handler sequences on a store that starts empty. Each method chains handler
 * calls the way a reseller and a device would, and its contract and asserts
 * state what the store holds after each step.
 */
module Scenarios {
  import opened Wrappers
  import opened Schema
  import opened Queries
  import opened Mailbox
  import opened Store

  const IMEI: string := "123456789012345"

  /** An operator creates reseller 0 with two licenses, keys 0 and 1. */
  method NewResellerWithTwoLicenses() returns (s: Store)
    ensures s.Valid() && fresh(s)
    ensures |s.resellers| == 1 && s.devices == [] && s.tokens == [] && s.commands == []
    ensures s.licenses == [Blank(0, 0), Blank(1, 0)]
  {
    s := new Store();
    assert !s.Taken("acme", "acme@example.com");
    var created := s.CreateReseller(Some("Acme"), Some("acme"), Some("acme@example.com"), Some("secret"), None, Some(2));
    assert created == Ok(0);
    assert Batch(0, 0, 2) == [Blank(0, 0), Blank(1, 0)];
  }

  /** Reseller 0 mints a token at time 0 and a device redeems it at time 10. */
  method EnrolledDevice() returns (s: Store)
    ensures s.Valid() && fresh(s)
    ensures s.licenses == [License(0, 0, EnUso, Some(IMEI), Some(10)), Blank(1, 0)]
    ensures s.devices == [Device(IMEI, 0, 0, None, None, Activo, true, Some(10), None, None, None, 10)]
    ensures s.tokens == [EnrollmentToken("ENR-1", 0, 0, TOKEN_LIFETIME, true)]
    ensures s.commands == []
  {
    s := NewResellerWithTwoLicenses();
    var minted := s.GenerateEnrollmentToken(0, "ENR-1", 0);
    assert AvailableTo(s.licenses[0], 0);
    assert s.tokens == [EnrollmentToken("ENR-1", 0, 0, TOKEN_LIFETIME, false)];

    assert Redeemable(s.tokens[0], "ENR-1", 10);
    var enrolled := s.RegisterDevice(Some("ENR-1"), Some(IMEI), None, None, 10);
    assert enrolled == Ok(Enrollment(0, 0, false));
  }

  /** A spent token is refused, and nothing changes. */
  method TokenSingleUse() {
    var s := EnrolledDevice();
    var again := s.RegisterDevice(Some("ENR-1"), Some(IMEI), None, None, 11);
    assert !Redeemable(s.tokens[0], "ENR-1", 11);
    assert again == Err(InvalidToken);
  }

  /** The enrolled device is released: its license stays VINCULADA to its IMEI. */
  method ReleasedDevice() returns (s: Store)
    ensures s.Valid() && fresh(s)
    ensures s.licenses == [License(0, 0, Vinculada, Some(IMEI), Some(10)), Blank(1, 0)]
    ensures s.devices == [Device(IMEI, 0, 0, None, None, Liberado, true, Some(10), None, None, None, 10)]
    ensures s.tokens == [EnrollmentToken("ENR-1", 0, 0, TOKEN_LIFETIME, true)]
    ensures s.commands == []
  {
    s := EnrolledDevice();
    assert s.Owns(0, 0);
    var released := s.ReleaseDevice(0, 0);
    assert released.Ok?;
  }

  /**
   * After the release, a token minted for the other license is redeemed with
   * the same IMEI: the device re-enrolls on its VINCULADA license, and the
   * second license stays DISPONIBLE.
   */
  method ReEnrollmentRoundTrip() {
    var s := ReleasedDevice();
    var minted := s.GenerateEnrollmentToken(0, "ENR-2", 20);
    assert !AvailableTo(s.licenses[0], 0) && AvailableTo(s.licenses[1], 0);
    assert s.tokens == [EnrollmentToken("ENR-1", 0, 0, TOKEN_LIFETIME, true),
                        EnrollmentToken("ENR-2", 0, 1, 20 + TOKEN_LIFETIME, false)];

    assert !Redeemable(s.tokens[0], "ENR-2", 30) && Redeemable(s.tokens[1], "ENR-2", 30);
    assert LinkedTo(s.licenses[0], IMEI, 0);
    var back := s.RegisterDevice(Some("ENR-2"), Some(IMEI), Some("Ana"), Some("555"), 30);
    assert back == Ok(Enrollment(0, 0, true));
    assert s.licenses == [License(0, 0, EnUso, Some(IMEI), Some(10)), Blank(1, 0)];
    assert |s.devices| == 1 && s.devices[0].status == Activo && s.devices[0].licenseId == 0;
  }

  /** A reseller that does not own the device is told it does not exist. */
  method ForeignLockRefused() {
    var s := EnrolledDevice();
    var foreign := s.LockDevice(7, 0, Some("overdue"), 15);
    assert foreign == Err(NotFound);
    assert s.devices[0].status == Activo && s.commands == [];
  }

  /** Lock then unlock: the device pulls [LOCK, UNLOCK] in that order, then nothing. */
  method CommandsDeliveredInOrder() {
    var s := EnrolledDevice();
    assert s.Owns(0, 0);
    var locked := s.LockDevice(0, 0, Some("overdue"), 20);
    assert locked.Ok? && s.devices[0].status == Bloqueado;
    var lock := Command(0, Lock, Message("overdue"), Pending, 20);
    assert s.commands == [lock];

    assert s.Owns(0, 0);
    var unlocked := s.UnlockDevice(0, 0, 30);
    assert unlocked.Ok? && s.devices[0].status == Activo;
    var unlock := Command(0, Unlock, NoPayload, Pending, 30);
    assert s.commands == [] + [lock] + [unlock];

    assert MarkSent([], 0) == [];
    LockThenUnlockDelivered([], 0, lock, unlock);
    var first := s.GetCommands(Some(0));
    assert first == Ok([lock, unlock]);

    NothingPendingAfterPull([lock, unlock], 0);
    var second := s.GetCommands(Some(0));
    assert second == Ok([]);
  }

  /** Reseller 0 mints two tokens before either is redeemed: both name license 0. */
  method TwoTokensMinted() returns (s: Store)
    ensures s.Valid() && fresh(s)
    ensures s.licenses == [Blank(0, 0), Blank(1, 0)] && s.devices == []
    ensures s.tokens == [EnrollmentToken("ENR-1", 0, 0, TOKEN_LIFETIME, false),
                         EnrollmentToken("ENR-2", 0, 0, TOKEN_LIFETIME, false)]
  {
    s := NewResellerWithTwoLicenses();
    var m1 := s.GenerateEnrollmentToken(0, "ENR-1", 0);
    assert AvailableTo(s.licenses[0], 0);
    assert s.tokens == [EnrollmentToken("ENR-1", 0, 0, TOKEN_LIFETIME, false)];
    var m2 := s.GenerateEnrollmentToken(0, "ENR-2", 0);
    assert AvailableTo(s.licenses[0], 0);
  }

  /** The first of the two tokens is redeemed by device 111111111111111. */
  method FirstTokenRedeemed() returns (s: Store)
    ensures s.Valid() && fresh(s)
    ensures s.licenses == [License(0, 0, EnUso, Some("111111111111111"), Some(10)), Blank(1, 0)]
    ensures s.tokens == [EnrollmentToken("ENR-1", 0, 0, TOKEN_LIFETIME, true),
                         EnrollmentToken("ENR-2", 0, 0, TOKEN_LIFETIME, false)]
    ensures s.devices == [Device("111111111111111", 0, 0, None, None, Activo, true, Some(10), None, None, None, 10)]
  {
    s := TwoTokensMinted();
    assert Redeemable(s.tokens[0], "ENR-1", 10);
    var a := s.RegisterDevice(Some("ENR-1"), Some("111111111111111"), None, None, 10);
    assert a == Ok(Enrollment(0, 0, false));
  }

  /**
   * The second token is redeemed by another device. The new-device path does
   * not re-check that the license is still DISPONIBLE, so it succeeds and the
   * license ends bound to the second IMEI while the first device still names it.
   */
  method TwoTokensOneLicense() returns (s: Store, second: Result<Enrollment, Error>)
    ensures s.Valid()
    ensures second == Ok(Enrollment(1, 0, false))
    ensures |s.devices| == 2 && s.devices[0].licenseId == 0 && s.devices[1].licenseId == 0
    ensures s.licenses[0].status == EnUso && s.licenses[0].deviceImei == Some("222222222222222")
  {
    s := FirstTokenRedeemed();
    assert !Redeemable(s.tokens[0], "ENR-2", 20) && Redeemable(s.tokens[1], "ENR-2", 20);
    assert s.devices[0].imei != "222222222222222";
    second := s.RegisterDevice(Some("ENR-2"), Some("222222222222222"), None, None, 20);
  }

  // ---- Properties of handler sequences on any valid store ----

  /** Pulling twice with no enqueue in between: the second pull returns nothing. */
  method PullTwice(s: Store, d: int) returns (first: Result<seq<Command>, Error>, second: Result<seq<Command>, Error>)
    requires s.Valid()
    modifies s
    ensures first == Ok(PendingCommands(old(s.commands), d))
    ensures second == Ok([])
    ensures s.commands == MarkSent(old(s.commands), d)
  {
    first := s.GetCommands(Some(d));
    NothingPendingAfterPull(old(s.commands), d);
    second := s.GetCommands(Some(d));
    MarkSentTwice(old(s.commands), d);
  }

  /** Toggling a reseller twice restores every reseller row. */
  method ToggleTwice(s: Store, id: int) returns (first: Result<bool, Error>, second: Result<bool, Error>)
    requires s.Valid()
    modifies s
    ensures first.Ok? <==> 0 <= id < |old(s.resellers)|
    ensures first.Ok? ==> second == Ok(!first.value)
    ensures s.State() == old(s.State())
  {
    first := s.ToggleResellerStatus(id);
    second := s.ToggleResellerStatus(id);
  }

  /**
   * Reporting the same sample twice: the device's current snapshot is what
   * one report leaves, and the history grows by two identical records.
   */
  method ReportTwice(s: Store, id: nat, latitude: real, longitude: real, battery: Option<int>,
                     networkType: Option<string>, now: int)
    returns (first: Result<(), Error>, second: Result<(), Error>)
    requires s.Valid() && id < |s.devices| && latitude != 0.0 && longitude != 0.0
    modifies s
    ensures first.Ok? && second.Ok?
    ensures s.devices == old(s.devices)[id := old(s.devices)[id].(
              lat := Some(latitude), lon := Some(longitude), battery := battery,
              lastConnection := Some(now), isOnline := true)]
    ensures s.history == old(s.history) + [LocationRecord(id, latitude, longitude, battery, networkType, now)]
                                        + [LocationRecord(id, latitude, longitude, battery, networkType, now)]
  {
    first := s.UpdateLocation(Some(id), Some(latitude), Some(longitude), battery, networkType, now);
    second := s.UpdateLocation(Some(id), Some(latitude), Some(longitude), battery, networkType, now);
  }
}
