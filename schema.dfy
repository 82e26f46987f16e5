/**
 * The rows of the six tables of the store (resellers, licenses, devices,
 * enrollment_tokens, pending_commands, location_history), the error kinds
 * the handlers report, and the invariants the handlers keep.
 *
 * A row's id is its position in its table: rows are never deleted, and an
 * INSERT appends. Timestamps are integers (milliseconds), as `NOW()` is a
 * parameter of every handler that reads the clock.
 */
module Schema {
  import opened Wrappers

  datatype LicenseStatus = Disponible | EnUso | Vinculada
  datatype DeviceStatus = Activo | Bloqueado | Liberado
  datatype CommandType = Lock | Unlock
  datatype CommandStatus = Pending | Sent

  /** The JSON object stored in `command_data`: `{message}` for LOCK, `{}` for UNLOCK. */
  datatype Payload = Message(text: string) | NoPayload

  /** A reseller account; the password digest is left to the hashing collaborator. */
  datatype Reseller = Reseller(
    businessName: string, username: string, email: string,
    phone: Option<string>, totalLicenses: int, isActive: bool)

  datatype License = License(
    key: nat, resellerId: nat, status: LicenseStatus,
    deviceImei: Option<string>, activatedAt: Option<int>)

  datatype Device = Device(
    imei: string, resellerId: nat, licenseId: nat,
    clientName: Option<string>, clientPhone: Option<string>,
    status: DeviceStatus, isOnline: bool, lastConnection: Option<int>,
    lat: Option<real>, lon: Option<real>, battery: Option<int>,
    enrolledAt: int)

  datatype EnrollmentToken = EnrollmentToken(
    value: string, resellerId: nat, licenseId: nat, expiresAt: int, isUsed: bool)

  datatype Command = Command(
    deviceId: nat, kind: CommandType, payload: Payload,
    status: CommandStatus, createdAt: int)

  datatype LocationRecord = LocationRecord(
    deviceId: nat, lat: real, lon: real, battery: Option<int>,
    networkType: Option<string>, recordedAt: int)

  /** The whole store at one instant; two equal snapshots mean nothing was written. */
  datatype Snapshot = Snapshot(
    resellers: seq<Reseller>, licenses: seq<License>, devices: seq<Device>,
    tokens: seq<EnrollmentToken>, commands: seq<Command>,
    history: seq<LocationRecord>, nextKey: nat)

  /** The error kinds, one per distinct answer of the handlers. */
  datatype Error =
    | MissingInput        // 400: a required field is absent or falsy
    | InvalidToken        // 400: no unused, unexpired token with that value
    | LicenseNotFound     // 400: the token's license row is missing
    | AlreadyRegistered   // 400: known IMEI without a linked license
    | NoLicenseAvailable  // 400: the reseller has no DISPONIBLE license
    | DuplicateAccount    // 400: username or email already taken
    | InvalidQuantity     // 400: quantity missing or below 1
    | NotFound            // 404: no such row, or not the caller's
    | StoreFault          // 500: the store refused a write; rolled back

  /** Lifetime of an enrollment token: 24 hours, in milliseconds. */
  const TOKEN_LIFETIME: int := 24 * 60 * 60 * 1000

  /** Payload text of a LOCK command sent without a message. */
  const DEFAULT_LOCK_MESSAGE: string := "Dispositivo bloqueado por el administrador"

  /** JavaScript truthiness of a string field: present and not empty. */
  predicate Present(s: Option<string>) {
    s.Some? && s.value != ""
  }

  /** JavaScript truthiness of a numeric field: present and not zero. */
  predicate Truthy(x: Option<real>) {
    x.Some? && x.value != 0.0
  }

  /** The first row satisfying `p`, in table order: `SELECT ... WHERE p` then `rows[0]`. */
  function FirstIndex<T>(s: seq<T>, p: T -> bool): (r: Option<nat>)
    ensures r.Some? ==> r.value < |s| && p(s[r.value])
    ensures r.Some? ==> forall j :: 0 <= j < r.value ==> !p(s[j])
    ensures r.None? <==> forall j :: 0 <= j < |s| ==> !p(s[j])
  {
    if |s| == 0 then None
    else if p(s[0]) then Some(0)
    else match FirstIndex(s[1..], p)
      case None => None
      case Some(k) => Some(k + 1)
  }

  // ---- Invariants of the store ----

  /** At most one device row per IMEI. */
  predicate UniqueImeis(ds: seq<Device>) {
    forall i, j :: 0 <= i < j < |ds| ==> ds[i].imei != ds[j].imei
  }

  /** A license is DISPONIBLE exactly when it is bound to no IMEI. */
  predicate LicensesConsistent(ls: seq<License>) {
    forall i :: 0 <= i < |ls| ==> (ls[i].status == Disponible <==> ls[i].deviceImei.None?)
  }

  /** Every device names an existing license row. */
  predicate DevicesLicensed(ds: seq<Device>, ls: seq<License>) {
    forall i :: 0 <= i < |ds| ==> ds[i].licenseId < |ls|
  }

  /** No two tokens share a value. */
  predicate DistinctTokenValues(ts: seq<EnrollmentToken>) {
    forall i, j :: 0 <= i < j < |ts| ==> ts[i].value != ts[j].value
  }

  /** Table order is creation order. */
  predicate Chronological(cs: seq<Command>) {
    forall i, j :: 0 <= i < j < |cs| ==> cs[i].createdAt <= cs[j].createdAt
  }

  /** License keys are issued in increasing order, all below the next key. */
  predicate KeysIssued(ls: seq<License>, nextKey: nat) {
    (forall i, j :: 0 <= i < j < |ls| ==> ls[i].key < ls[j].key) &&
    (forall i :: 0 <= i < |ls| ==> ls[i].key < nextKey)
  }

  /** No two resellers share a username, and no two share an email. */
  predicate DistinctAccounts(rs: seq<Reseller>) {
    forall i, j :: 0 <= i < j < |rs| ==>
      rs[i].username != rs[j].username && rs[i].email != rs[j].email
  }

  /** Tokens are never removed or rewritten, and `isUsed` only goes from false to true. */
  predicate TokensOnlySpent(before: seq<EnrollmentToken>, after: seq<EnrollmentToken>) {
    |before| <= |after| &&
    forall i :: 0 <= i < |before| ==>
      after[i].(isUsed := before[i].isUsed) == before[i] &&
      (before[i].isUsed ==> after[i].isUsed)
  }
}
