/**
 * The device-lifecycle store: the six tables and the handlers that change
 * them. Each handler is one sequential transaction: it reads, decides, then
 * writes; every error path rolls back, so it leaves the store as it was.
 *
 * The handlers of deviceController.js (device-facing), resellerController.js
 * (scoped to the calling reseller) and superAdminController.js (operator)
 * all work on the same tables, so they are methods of one class. The caller's
 * identity, which the bearer-token middleware establishes, is a parameter.
 */
module Store {
  import opened Wrappers
  import opened Schema
  import opened Queries
  import opened Mailbox

  /** The answer of a successful enrollment. */
  datatype Enrollment = Enrollment(deviceId: nat, resellerId: nat, reEnrolled: bool)

  /** A device as the reseller's detail view returns it, joined with its license row when there is one. */
  datatype DeviceView = DeviceView(device: Device, license: Option<License>)

  class Store {
    var resellers: seq<Reseller>
    var licenses: seq<License>
    var devices: seq<Device>
    var tokens: seq<EnrollmentToken>
    var commands: seq<Command>
    var history: seq<LocationRecord>
    /** Source of fresh license keys (the key generator's uuids). */
    var nextKey: nat

    ghost predicate Valid()
      reads this
    {
      UniqueImeis(devices) &&
      LicensesConsistent(licenses) &&
      DevicesLicensed(devices, licenses) &&
      DistinctTokenValues(tokens) &&
      Chronological(commands) &&
      KeysIssued(licenses, nextKey) &&
      DistinctAccounts(resellers)
    }

    ghost function State(): Snapshot
      reads this
    {
      Snapshot(resellers, licenses, devices, tokens, commands, history, nextKey)
    }

    constructor ()
      ensures Valid()
      ensures resellers == [] && licenses == [] && devices == []
      ensures tokens == [] && commands == [] && history == [] && nextKey == 0
    {
      resellers, licenses, devices := [], [], [];
      tokens, commands, history := [], [], [];
      nextKey := 0;
    }

    // ------------------------------------------------------------------
    // deviceController.js
    // ------------------------------------------------------------------

    /**
     * registerDevice: redeem an enrollment token for the device `imei`.
     * Four outcomes: bad input or token; unknown IMEI (a new device on the
     * token's license); known IMEI with a VINCULADA license of the token's
     * reseller (re-enrollment on that license); known IMEI otherwise (refused).
     */
    method RegisterDevice(token: Option<string>, imei: Option<string>,
                          clientName: Option<string>, clientPhone: Option<string>, now: int)
      returns (r: Result<Enrollment, Error>)
      requires Valid()
      modifies this
      ensures Valid()
      ensures r.Err? ==> State() == old(State())
      ensures TokensOnlySpent(old(tokens), tokens)
      ensures r == Err(MissingInput) <==> !Present(token) || !Present(imei)
      ensures Present(token) && Present(imei) ==>
        (r == Err(InvalidToken) <==> FindValidToken(old(tokens), token.value, now).None?)
      // a spent token can never be redeemed again
      ensures r.Ok? ==> forall later :: FindValidToken(tokens, token.value, later).None?
      // unknown IMEI: a new device on the token's license, if that license row exists
      ensures Present(token) && Present(imei) && FindValidToken(old(tokens), token.value, now).Some? &&
              FindDevice(old(devices), imei.value).None? ==>
        var ti := FindValidToken(old(tokens), token.value, now).value;
        var t := old(tokens)[ti];
        if t.licenseId < |old(licenses)| then
          r == Ok(Enrollment(|old(devices)|, t.resellerId, false)) &&
          devices == old(devices) + [Device(imei.value, t.resellerId, t.licenseId, clientName, clientPhone,
                                            Activo, true, Some(now), None, None, None, now)] &&
          licenses == old(licenses)[t.licenseId := old(licenses)[t.licenseId].(
                        status := EnUso, deviceImei := Some(imei.value), activatedAt := Some(now))] &&
          tokens == old(tokens)[ti := t.(isUsed := true)] &&
          resellers == old(resellers) && commands == old(commands) &&
          history == old(history) && nextKey == old(nextKey)
        else
          r == Err(LicenseNotFound)
      // known IMEI: re-enrollment on the linked license, or refusal
      ensures Present(token) && Present(imei) && FindValidToken(old(tokens), token.value, now).Some? &&
              FindDevice(old(devices), imei.value).Some? ==>
        var ti := FindValidToken(old(tokens), token.value, now).value;
        var t := old(tokens)[ti];
        var di := FindDevice(old(devices), imei.value).value;
        match FindLinkedLicense(old(licenses), imei.value, t.resellerId)
        case None => r == Err(AlreadyRegistered)
        case Some(li) =>
          r == Ok(Enrollment(di, t.resellerId, true)) &&
          licenses == old(licenses)[li := old(licenses)[li].(status := EnUso)] &&
          devices == old(devices)[di := old(devices)[di].(
                       status := Activo, clientName := clientName, clientPhone := clientPhone, enrolledAt := now)] &&
          tokens == old(tokens)[ti := t.(isUsed := true)] &&
          resellers == old(resellers) && commands == old(commands) &&
          history == old(history) && nextKey == old(nextKey)
    {
      if !Present(token) || !Present(imei) {
        return Err(MissingInput);
      }
      var found := FindValidToken(tokens, token.value, now);
      if found.None? {
        return Err(InvalidToken);
      }
      var ti := found.value;
      var t := tokens[ti];
      var existing := FindDevice(devices, imei.value);
      if existing.Some? {
        var linked := FindLinkedLicense(licenses, imei.value, t.resellerId);
        if linked.None? {
          return Err(AlreadyRegistered);
        }
        ReEnroll(ti, existing.value, linked.value, clientName, clientPhone, now);
        return Ok(Enrollment(existing.value, t.resellerId, true));
      }
      if t.licenseId >= |licenses| {
        return Err(LicenseNotFound);
      }
      var id := EnrollNew(ti, imei.value, clientName, clientPhone, now);
      r := Ok(Enrollment(id, t.resellerId, false));
    }

    /** The re-enrollment writes: linked license back to EN_USO, device reactivated, token spent. */
    method ReEnroll(ti: nat, di: nat, li: nat, clientName: Option<string>, clientPhone: Option<string>, now: int)
      requires Valid()
      requires ti < |tokens| && di < |devices| && li < |licenses|
      requires licenses[li].status == Vinculada
      modifies this
      ensures Valid()
      ensures licenses == old(licenses)[li := old(licenses)[li].(status := EnUso)]
      ensures devices == old(devices)[di := old(devices)[di].(
                status := Activo, clientName := clientName, clientPhone := clientPhone, enrolledAt := now)]
      ensures tokens == old(tokens)[ti := old(tokens)[ti].(isUsed := true)]
      ensures resellers == old(resellers) && commands == old(commands) &&
              history == old(history) && nextKey == old(nextKey)
      ensures forall later :: FindValidToken(tokens, old(tokens)[ti].value, later).None?
    {
      licenses := licenses[li := licenses[li].(status := EnUso)];
      devices := devices[di := devices[di].(
                   status := Activo, clientName := clientName, clientPhone := clientPhone, enrolledAt := now)];
      tokens := tokens[ti := tokens[ti].(isUsed := true)];
      forall later ensures FindValidToken(tokens, old(tokens)[ti].value, later).None? {
        SpentTokenNotRedeemable(old(tokens), ti, later);
      }
    }

    /** The new-device writes: device inserted, the token's license EN_USO bound to the IMEI, token spent. */
    method EnrollNew(ti: nat, imei: string, clientName: Option<string>, clientPhone: Option<string>, now: int)
      returns (id: nat)
      requires Valid()
      requires ti < |tokens| && tokens[ti].licenseId < |licenses|
      requires FindDevice(devices, imei).None?
      modifies this
      ensures Valid()
      ensures id == |old(devices)|
      ensures devices == old(devices) + [Device(imei, old(tokens)[ti].resellerId, old(tokens)[ti].licenseId,
                                                clientName, clientPhone, Activo, true, Some(now), None, None, None, now)]
      ensures licenses == old(licenses)[old(tokens)[ti].licenseId := old(licenses)[old(tokens)[ti].licenseId].(
                status := EnUso, deviceImei := Some(imei), activatedAt := Some(now))]
      ensures tokens == old(tokens)[ti := old(tokens)[ti].(isUsed := true)]
      ensures resellers == old(resellers) && commands == old(commands) &&
              history == old(history) && nextKey == old(nextKey)
      ensures forall later :: FindValidToken(tokens, old(tokens)[ti].value, later).None?
    {
      var t := tokens[ti];
      id := |devices|;
      devices := devices + [Device(imei, t.resellerId, t.licenseId, clientName, clientPhone,
                                   Activo, true, Some(now), None, None, None, now)];
      licenses := licenses[t.licenseId := licenses[t.licenseId].(
                    status := EnUso, deviceImei := Some(imei), activatedAt := Some(now))];
      tokens := tokens[ti := t.(isUsed := true)];
      forall later ensures FindValidToken(tokens, t.value, later).None? {
        SpentTokenNotRedeemable(old(tokens), ti, later);
      }
    }

    /**
     * updateLocation: a falsy device id or coordinate (0 included) is refused;
     * otherwise the device's current position is overwritten and one history
     * record is appended. The history row's device_id is a foreign key, so an
     * unknown device makes the INSERT fail and the transaction roll back.
     */
    method UpdateLocation(deviceId: Option<int>, latitude: Option<real>, longitude: Option<real>,
                          battery: Option<int>, networkType: Option<string>, now: int)
      returns (r: Result<(), Error>)
      requires Valid()
      modifies this
      ensures Valid()
      ensures r.Err? ==> State() == old(State())
      ensures r == Err(MissingInput) <==> deviceId.None? || !Truthy(latitude) || !Truthy(longitude)
      ensures deviceId.Some? && Truthy(latitude) && Truthy(longitude) ==>
        var id := deviceId.value;
        if 0 <= id < |old(devices)| then
          r == Ok(()) &&
          devices == old(devices)[id := old(devices)[id].(
                       lat := latitude, lon := longitude, battery := battery,
                       lastConnection := Some(now), isOnline := true)] &&
          history == old(history) + [LocationRecord(id, latitude.value, longitude.value, battery, networkType, now)] &&
          resellers == old(resellers) && licenses == old(licenses) && tokens == old(tokens) &&
          commands == old(commands) && nextKey == old(nextKey)
        else
          r == Err(StoreFault)
    {
      if deviceId.None? || !Truthy(latitude) || !Truthy(longitude) {
        return Err(MissingInput);
      }
      var id := deviceId.value;
      if !(0 <= id < |devices|) {
        return Err(StoreFault);
      }
      devices := devices[id := devices[id].(
                   lat := latitude, lon := longitude, battery := battery,
                   lastConnection := Some(now), isOnline := true)];
      history := history + [LocationRecord(id, latitude.value, longitude.value, battery, networkType, now)];
      r := Ok(());
    }

    /**
     * The pull computed over the command table: the rows selected for the
     * device, and the table with each of them flipped to SENT.
     */
    static method Pull(cs: seq<Command>, d: int) returns (out: seq<Command>, updated: seq<Command>)
      ensures out == PendingCommands(cs, d)
      ensures updated == MarkSent(cs, d)
    {
      out, updated := [], [];
      var i := 0;
      while i < |cs|
        invariant 0 <= i <= |cs|
        invariant out == PendingCommands(cs[..i], d)
        invariant updated == MarkSent(cs[..i], d)
      {
        assert cs[..i + 1] == cs[..i] + [cs[i]];
        PendingSnoc(cs[..i], cs[i], d);
        MarkSentSnoc(cs[..i], cs[i], d);
        if PendingFor(cs[i], d) {
          out := out + [cs[i]];
          updated := updated + [cs[i].(status := Sent)];
        } else {
          updated := updated + [cs[i]];
        }
        i := i + 1;
      }
      assert cs[..i] == cs;
    }

    /**
     * getCommands: return the device's pending commands in creation order and
     * mark each of them SENT.
     */
    method GetCommands(deviceId: Option<int>) returns (r: Result<seq<Command>, Error>)
      requires Valid()
      modifies this
      ensures Valid()
      ensures deviceId.None? ==> r == Err(MissingInput) && State() == old(State())
      ensures deviceId.Some? ==>
        r == Ok(PendingCommands(old(commands), deviceId.value)) &&
        commands == MarkSent(old(commands), deviceId.value) &&
        resellers == old(resellers) && licenses == old(licenses) && devices == old(devices) &&
        tokens == old(tokens) && history == old(history) && nextKey == old(nextKey)
    {
      if deviceId.None? {
        return Err(MissingInput);
      }
      var d := deviceId.value;
      var out, updated := Pull(commands, d);
      MarkSentChronological(commands, d);
      commands := updated;
      r := Ok(out);
    }

    /** heartbeat: refresh the device's liveness and battery; an unknown device updates no row. */
    method Heartbeat(deviceId: Option<int>, battery: Option<int>, now: int) returns (r: Result<(), Error>)
      requires Valid()
      modifies this
      ensures Valid()
      ensures deviceId.None? <==> r == Err(MissingInput)
      ensures r.Err? ==> State() == old(State())
      ensures deviceId.Some? ==>
        var id := deviceId.value;
        r == Ok(()) &&
        devices == (if 0 <= id < |old(devices)|
                    then old(devices)[id := old(devices)[id].(
                           lastConnection := Some(now), isOnline := true, battery := battery)]
                    else old(devices)) &&
        resellers == old(resellers) && licenses == old(licenses) && tokens == old(tokens) &&
        commands == old(commands) && history == old(history) && nextKey == old(nextKey)
    {
      if deviceId.None? {
        return Err(MissingInput);
      }
      var id := deviceId.value;
      if 0 <= id < |devices| {
        devices := devices[id := devices[id].(lastConnection := Some(now), isOnline := true, battery := battery)];
      }
      r := Ok(());
    }

    // ------------------------------------------------------------------
    // resellerController.js
    // ------------------------------------------------------------------

    /** No token value issued so far equals `secret` (the uuid generator never repeats). */
    predicate FreshSecret(secret: string)
      reads this
    {
      forall i :: 0 <= i < |tokens| ==> tokens[i].value != secret
    }

    /**
     * generateEnrollmentQR, token part: mint a token for one of the caller's
     * DISPONIBLE licenses, valid for 24 hours. The license row is not touched.
     */
    method GenerateEnrollmentToken(caller: nat, secret: string, now: int) returns (r: Result<nat, Error>)
      requires Valid()
      requires FreshSecret(secret)
      modifies this
      ensures Valid()
      ensures r.Err? ==> r == Err(NoLicenseAvailable) && State() == old(State())
      ensures r.Err? <==> forall i :: 0 <= i < |old(licenses)| ==> !AvailableTo(old(licenses)[i], caller)
      ensures r.Ok? ==> r.value == |old(tokens)| &&
                        exists li :: 0 <= li < |licenses| && AvailableTo(licenses[li], caller) &&
                          tokens == old(tokens) + [EnrollmentToken(secret, caller, li, now + TOKEN_LIFETIME, false)]
      // of the caller's DISPONIBLE licenses, the model's choice is the first in table order
      ensures r.Ok? ==> tokens[r.value].licenseId == FindAvailableLicense(old(licenses), caller).value
      ensures TokensOnlySpent(old(tokens), tokens)
      ensures resellers == old(resellers) && licenses == old(licenses) && devices == old(devices) &&
              commands == old(commands) && history == old(history) && nextKey == old(nextKey)
    {
      var available := FindAvailableLicense(licenses, caller);
      if available.None? {
        return Err(NoLicenseAvailable);
      }
      var li := available.value;
      tokens := tokens + [EnrollmentToken(secret, caller, li, now + TOKEN_LIFETIME, false)];
      assert AvailableTo(licenses[li], caller);
      r := Ok(|tokens| - 1);
    }

    /** The device `id` exists and belongs to `caller`: `WHERE id = $1 AND reseller_id = $2`. */
    predicate Owns(caller: nat, id: int)
      reads this
    {
      0 <= id < |devices| && devices[id].resellerId == caller
    }

    /** getDeviceDetail: the device with its license, only when the caller owns it. */
    function DeviceDetail(caller: nat, id: int): (r: Option<DeviceView>)
      reads this
      ensures r.Some? <==> 0 <= id < |devices| && devices[id].resellerId == caller
      ensures r.Some? ==> r.value.device == devices[id]
      ensures r.Some? ==>
        (r.value.license.Some? <==> devices[id].licenseId < |licenses|) &&
        (r.value.license.Some? ==> r.value.license.value == licenses[devices[id].licenseId])
    {
      if !Owns(caller, id) then None
      else
        var lid := devices[id].licenseId;
        Some(DeviceView(devices[id], if lid < |licenses| then Some(licenses[lid]) else None))
    }

    /** NOW() does not run behind any command already queued. */
    predicate ClockAhead(now: int)
      reads this
    {
      forall i :: 0 <= i < |commands| ==> commands[i].createdAt <= now
    }

    /**
     * lockDevice: whatever its status, the caller's device becomes BLOQUEADO
     * and one LOCK command carrying the message (or the default text) is queued.
     */
    method LockDevice(caller: nat, id: int, message: Option<string>, now: int) returns (r: Result<(), Error>)
      requires Valid() && ClockAhead(now)
      modifies this
      ensures Valid()
      ensures r.Err? <==> !old(Owns(caller, id))
      ensures r.Err? ==> r == Err(NotFound) && State() == old(State())
      ensures r.Ok? ==>
        devices == old(devices)[id := old(devices)[id].(status := Bloqueado)] &&
        commands == old(commands) + [Command(id, Lock,
                      Message(if Present(message) then message.value else DEFAULT_LOCK_MESSAGE), Pending, now)] &&
        resellers == old(resellers) && licenses == old(licenses) && tokens == old(tokens) &&
        history == old(history) && nextKey == old(nextKey)
    {
      if !Owns(caller, id) {
        return Err(NotFound);
      }
      devices := devices[id := devices[id].(status := Bloqueado)];
      var text := if Present(message) then message.value else DEFAULT_LOCK_MESSAGE;
      commands := commands + [Command(id, Lock, Message(text), Pending, now)];
      r := Ok(());
    }

    /**
     * unlockDevice: whatever its status (LIBERADO included), the caller's
     * device becomes ACTIVO and one UNLOCK command with an empty payload is queued.
     */
    method UnlockDevice(caller: nat, id: int, now: int) returns (r: Result<(), Error>)
      requires Valid() && ClockAhead(now)
      modifies this
      ensures Valid()
      ensures r.Err? <==> !old(Owns(caller, id))
      ensures r.Err? ==> r == Err(NotFound) && State() == old(State())
      ensures r.Ok? ==>
        devices == old(devices)[id := old(devices)[id].(status := Activo)] &&
        commands == old(commands) + [Command(id, Unlock, NoPayload, Pending, now)] &&
        resellers == old(resellers) && licenses == old(licenses) && tokens == old(tokens) &&
        history == old(history) && nextKey == old(nextKey)
    {
      if !Owns(caller, id) {
        return Err(NotFound);
      }
      devices := devices[id := devices[id].(status := Activo)];
      commands := commands + [Command(id, Unlock, NoPayload, Pending, now)];
      r := Ok(());
    }

    /**
     * releaseDevice: the device's license becomes VINCULADA to the device's
     * IMEI, so that only this unit can re-enroll on it, and the device becomes
     * LIBERADO. No command is queued.
     */
    method ReleaseDevice(caller: nat, id: int) returns (r: Result<(), Error>)
      requires Valid()
      modifies this
      ensures Valid()
      ensures r.Err? <==> !old(Owns(caller, id))
      ensures r.Err? ==> r == Err(NotFound) && State() == old(State())
      ensures r.Ok? ==>
        var d := old(devices)[id];
        licenses == old(licenses)[d.licenseId := old(licenses)[d.licenseId].(
                      status := Vinculada, deviceImei := Some(d.imei))] &&
        devices == old(devices)[id := d.(status := Liberado)] &&
        resellers == old(resellers) && tokens == old(tokens) && commands == old(commands) &&
        history == old(history) && nextKey == old(nextKey)
    {
      if !Owns(caller, id) {
        return Err(NotFound);
      }
      var d := devices[id];
      licenses := licenses[d.licenseId := licenses[d.licenseId].(status := Vinculada, deviceImei := Some(d.imei))];
      devices := devices[id := d.(status := Liberado)];
      r := Ok(());
    }

    // ------------------------------------------------------------------
    // superAdminController.js
    // ------------------------------------------------------------------

    /** Appends `n` fresh DISPONIBLE licenses for reseller `rid`, one per iteration of the builder loop. */
    method InsertLicenses(rid: nat, n: nat)
      requires Valid()
      modifies this
      ensures Valid()
      ensures licenses == old(licenses) + Batch(old(nextKey), rid, n)
      ensures nextKey == old(nextKey) + n
      ensures resellers == old(resellers) && devices == old(devices) && tokens == old(tokens) &&
              commands == old(commands) && history == old(history)
    {
      ghost var ls0, k0 := licenses, nextKey;
      BatchKeepsInvariants(ls0, k0, rid, n);
      var i := 0;
      while i < n
        invariant 0 <= i <= n
        invariant licenses == ls0 + Batch(k0, rid, i)
        invariant nextKey == k0 + i
        invariant resellers == old(resellers) && devices == old(devices) && tokens == old(tokens)
        invariant commands == old(commands) && history == old(history)
      {
        licenses := licenses + [Blank(nextKey, rid)];
        nextKey := nextKey + 1;
        i := i + 1;
      }
    }

    /** Some reseller already has this username or this email. */
    predicate Taken(username: string, email: string)
      reads this
    {
      exists i :: 0 <= i < |resellers| && (resellers[i].username == username || resellers[i].email == email)
    }

    /**
     * createReseller: all four of business name, username, email and password
     * are required; the username and email must be new; the reseller starts
     * with `total_licenses || 0` and, when that is positive, with that many
     * fresh DISPONIBLE licenses.
     */
    method CreateReseller(businessName: Option<string>, username: Option<string>, email: Option<string>,
                          password: Option<string>, phone: Option<string>, totalLicenses: Option<int>)
      returns (r: Result<nat, Error>)
      requires Valid()
      modifies this
      ensures Valid()
      ensures r.Err? ==> State() == old(State())
      ensures r == Err(MissingInput) <==>
        !Present(businessName) || !Present(username) || !Present(email) || !Present(password)
      ensures Present(businessName) && Present(username) && Present(email) && Present(password) ==>
        (r == Err(DuplicateAccount) <==> old(Taken(username.value, email.value)))
      ensures r.Ok? <==> Present(businessName) && Present(username) && Present(email) && Present(password) &&
                         !old(Taken(username.value, email.value))
      ensures r.Ok? ==>
        var total := if totalLicenses.Some? then totalLicenses.value else 0;
        var created := if total > 0 then total else 0;
        r.value == |old(resellers)| &&
        resellers == old(resellers) + [Reseller(businessName.value, username.value, email.value, phone, total, true)] &&
        licenses == old(licenses) + Batch(old(nextKey), r.value, created) &&
        nextKey == old(nextKey) + created &&
        devices == old(devices) && tokens == old(tokens) &&
        commands == old(commands) && history == old(history)
    {
      if !Present(businessName) || !Present(username) || !Present(email) || !Present(password) {
        return Err(MissingInput);
      }
      if Taken(username.value, email.value) {
        return Err(DuplicateAccount);
      }
      var total := if totalLicenses.Some? then totalLicenses.value else 0;
      var rid := |resellers|;
      resellers := resellers + [Reseller(businessName.value, username.value, email.value, phone, total, true)];
      if total > 0 {
        InsertLicenses(rid, total);
      } else {
        assert Batch(nextKey, rid, 0) == [];
        assert licenses == licenses + [];
      }
      r := Ok(rid);
    }

    /**
     * addLicenses: `quantity` must be present and at least 1, the reseller
     * must exist; then `quantity` fresh licenses are added and the reseller's
     * `total_licenses` grows by `quantity`.
     */
    method AddLicenses(id: int, quantity: Option<int>) returns (r: Result<(), Error>)
      requires Valid()
      modifies this
      ensures Valid()
      ensures r.Err? ==> State() == old(State())
      ensures r == Err(InvalidQuantity) <==> quantity.None? || quantity.value < 1
      ensures quantity.Some? && quantity.value >= 1 ==> (r == Err(NotFound) <==> !(0 <= id < |old(resellers)|))
      ensures r.Ok? <==> quantity.Some? && quantity.value >= 1 && 0 <= id < |old(resellers)|
      ensures r.Ok? ==>
        var q := quantity.value;
        q >= 1 && 0 <= id < |old(resellers)| &&
        licenses == old(licenses) + Batch(old(nextKey), id, q) &&
        nextKey == old(nextKey) + q &&
        resellers == old(resellers)[id := old(resellers)[id].(totalLicenses := old(resellers)[id].totalLicenses + q)] &&
        devices == old(devices) && tokens == old(tokens) &&
        commands == old(commands) && history == old(history)
    {
      if quantity.None? || quantity.value < 1 {
        return Err(InvalidQuantity);
      }
      if !(0 <= id < |resellers|) {
        return Err(NotFound);
      }
      var q := quantity.value;
      InsertLicenses(id, q);
      resellers := resellers[id := resellers[id].(totalLicenses := resellers[id].totalLicenses + q)];
      r := Ok(());
    }

    /** toggleResellerStatus: negate `is_active` of an existing reseller and answer its new value. */
    method ToggleResellerStatus(id: int) returns (r: Result<bool, Error>)
      requires Valid()
      modifies this
      ensures Valid()
      ensures r.Err? <==> !(0 <= id < |old(resellers)|)
      ensures r.Err? ==> r == Err(NotFound) && State() == old(State())
      ensures r.Ok? ==>
        r.value == !old(resellers)[id].isActive &&
        resellers == old(resellers)[id := old(resellers)[id].(isActive := r.value)] &&
        licenses == old(licenses) && devices == old(devices) && tokens == old(tokens) &&
        commands == old(commands) && history == old(history) && nextKey == old(nextKey)
    {
      if !(0 <= id < |resellers|) {
        return Err(NotFound);
      }
      var active := !resellers[id].isActive;
      resellers := resellers[id := resellers[id].(isActive := active)];
      r := Ok(active);
    }
  }
}
