# Device-lifecycle store of the MDM backend, in Dafny

This project models the transactional core of an MDM (mobile device
management) backend. Resellers sell licenses. A reseller mints a one-time
enrollment token that is tied to one of its licenses. A physical device,
identified by its IMEI, redeems the token to enroll. The reseller can later
lock, unlock or release the device, and the device pulls its queued commands
and reports telemetry. The platform operator creates resellers and gives them
licenses.

Six tables make up the store: `resellers`, `licenses`, `devices`,
`enrollment_tokens`, `pending_commands` and `location_history`. They are
`seq` fields of one class, `Store.Store`. A row's id is its position in its
table, because rows are never deleted and an INSERT appends. Each HTTP handler
becomes one method. The method reads, decides and writes in one step, and
returns `Ok` or an `Error` kind. Every error path leaves the whole store
(`State()`) as it was. Every handler keeps `Valid()`:

- at most one device per IMEI;
- a license is `DISPONIBLE` exactly when it has no bound IMEI, so `EN_USO`
  and `VINCULADA` licenses always have one;
- every device names an existing license;
- no two tokens share a value;
- commands are stored in creation order;
- license keys are fresh;
- no two resellers share a username, and no two share an email.

Files:

- `wrappers.dfy`: `Option` and `Result`.
- `schema.dfy`: row types, status enums, error kinds, constants, JavaScript
  truthiness, `FirstIndex` (the `rows[0]` of a `SELECT`) and the invariants.
- `queries.dfy`: the `SELECT`s the handlers decide on, and the bulk license
  batch.
- `mailbox.dfy`: the command mailbox, meaning which commands a pull returns
  and how the pull flips them to `SENT`.
- `store.dfy`: the class and its handlers.
- `scenarios.dfy`: handler call chains that start from an empty store, and
  properties of handler sequences on any valid store.

Behaviour of the code worth knowing, which the model keeps as written:

- The new-device branch of `registerDevice` only checks that the token's
  license row exists. It does not check that the license is still
  `DISPONIBLE`.
- Minting a token does not touch the license. So two tokens minted before
  either is redeemed can name the same license. The model takes the first
  `DISPONIBLE` row, so it always does. If two IMEIs that are not yet
  enrolled redeem them, both redemptions succeed. The license ends bound to
  the second IMEI while the first device still names it.
  `Scenarios.TwoTokensOneLicense` performs exactly this sequence.
- Lock, unlock and release do not look at the device's current status.

## Model

| member | source | states |
|---|---|---|
| Schema.FirstIndex | src/controllers/deviceController.js:16-26 | The row a `SELECT ... WHERE p` followed by `rows[0]` yields: it satisfies `p` and no earlier row does. It is absent exactly when no row satisfies `p`. |
| Queries.FindValidToken | src/controllers/deviceController.js:16-19 | The first token with the given value that is unused and whose `expires_at` is strictly later than `now`. No earlier token qualifies, and the result is absent exactly when no token does. |
| Queries.FindDevice | src/controllers/deviceController.js:29-32 | The first device with the given IMEI. No earlier device has it, and the result is absent exactly when no device does. |
| Queries.FindLinkedLicense | src/controllers/deviceController.js:39-42 | The first license that is `VINCULADA`, bound to the IMEI and owned by the token's reseller. No earlier license qualifies, and the result is absent exactly when none does. |
| Queries.FindAvailableLicense | src/controllers/resellerController.js:53-57 | The first `DISPONIBLE` license of the reseller. No earlier license qualifies, and the result is absent exactly when the reseller has none. |
| Queries.SpentTokenNotRedeemable | src/controllers/deviceController.js:16-19 | When token values are distinct, a token marked used can never again pass the `is_used = false AND expires_at > NOW()` lookup, at any time. |
| Queries.Batch | src/controllers/superAdminController.js:78-86 | The bulk insert adds exactly `n` rows. All are owned by the reseller, `DISPONIBLE`, with no IMEI and no activation time, and carry consecutive fresh keys. |
| Queries.BatchKeepsInvariants | src/controllers/superAdminController.js:159-167 | Appending a batch keeps license keys increasing and fresh, and keeps every license's status consistent with its bound IMEI. |
| Mailbox.PendingCommands | src/controllers/deviceController.js:177-181 | A command is in the pull exactly when it is in the table, belongs to the device and is `PENDING`. |
| Mailbox.MarkSent | src/controllers/deviceController.js:184-191 | The table keeps its length. Other devices' rows are unchanged. Each of the device's rows differs only in having status `SENT`. |
| Mailbox.PendingConcat | src/controllers/deviceController.js:177-181 | The pull keeps table order: selecting from two concatenated parts gives the two selections concatenated. |
| Mailbox.PendingChronological | src/controllers/deviceController.js:177-181 | When the table is in creation order, the pull is in ascending `created_at` order. |
| Mailbox.NothingPendingAfterPull | src/controllers/deviceController.js:184-191 | After the flip, nothing is pending for the device, so a second pull returns nothing. |
| Mailbox.PullLeavesOthers | src/controllers/deviceController.js:186-190 | A pull for one device leaves every other device's pending commands as they were. |
| Mailbox.LockThenUnlockDelivered | src/controllers/resellerController.js:192-239 | After a pull, enqueueing LOCK then UNLOCK makes the next pull return exactly `[LOCK, UNLOCK]`. |
| Store.Store.RegisterDevice | src/controllers/deviceController.js:4-125 | Missing token or IMEI fails with `MissingInput`. No unused, unexpired token with that value fails with `InvalidToken`. An unknown IMEI adds one `ACTIVO`, online device on the token's license, makes that license `EN_USO` bound to the IMEI, and spends the token; if the license row is missing, it fails with `LicenseNotFound`. A known IMEI with a `VINCULADA` license of the token's reseller re-activates the existing device on that license, does not touch the token's own license, and spends the token. A known IMEI without one fails with `AlreadyRegistered`. Every error leaves the store unchanged. Tokens only go from unused to used, a spent token is never redeemable again, and `Valid()` is kept. |
| Store.Store.ReEnroll | src/controllers/deviceController.js:44-60 | The re-enrollment writes: the linked license becomes `EN_USO`, the device becomes `ACTIVO` with the new client data and `enrolled_at`, its license and reseller are unchanged, and the token is spent. |
| Store.Store.EnrollNew | src/controllers/deviceController.js:88-106 | The new-device writes: exactly one device appended, the token's license `EN_USO` with the IMEI and activation time, the token spent, and `Valid()` kept (the IMEI was unknown). |
| Store.Store.UpdateLocation | src/controllers/deviceController.js:128-166 | A missing device id, or a missing or zero coordinate, fails with no change. For an existing device it overwrites the position, battery, `last_connection` and `is_online`, and appends exactly one history record. For an unknown device the history insert fails and everything rolls back. |
| Store.Store.Pull | src/controllers/deviceController.js:177-191 | The loop over the command table yields exactly the device's pending commands in order, together with the table flipped to `SENT` for those rows. |
| Store.Store.GetCommands | src/controllers/deviceController.js:169-198 | A missing device id fails with no change. Otherwise it returns the device's pending commands in creation order and marks exactly those `SENT`. Nothing else changes. |
| Store.Store.Heartbeat | src/controllers/deviceController.js:201-222 | A missing device id fails. Otherwise only `last_connection`, `is_online` and `battery_level` of that device change (an unknown id changes nothing), and no history is written. |
| Store.Store.GenerateEnrollmentToken | src/controllers/resellerController.js:46-73 | Fails with `NoLicenseAvailable` and no change exactly when the caller owns no `DISPONIBLE` license. Otherwise it appends exactly one unused token for the caller, on a `DISPONIBLE` license the caller owns, expiring 24 hours after `now`. No license row is modified. |
| Store.Store.DeviceDetail | src/controllers/resellerController.js:138-157 | Returns a device exactly when its id and its reseller both match the caller. The view carries that device and its license row when the row exists. |
| Store.Store.LockDevice | src/controllers/resellerController.js:165-210 | A device the caller does not own gives `NotFound` with no change. Otherwise the device becomes `BLOQUEADO` whatever its status, and exactly one `LOCK` command is queued, carrying the message or the default text. |
| Store.Store.UnlockDevice | src/controllers/resellerController.js:213-254 | A device the caller does not own gives `NotFound` with no change. Otherwise the device becomes `ACTIVO` whatever its status (`LIBERADO` included), and exactly one `UNLOCK` command with an empty payload is queued. |
| Store.Store.ReleaseDevice | src/controllers/resellerController.js:257-306 | A device the caller does not own gives `NotFound` with no change. Otherwise the device's license becomes `VINCULADA` with the device's IMEI and the device becomes `LIBERADO`. No command is queued, and no other device or license changes. |
| Store.Store.InsertLicenses | src/controllers/superAdminController.js:159-167 | The builder loop appends exactly the batch of `n` fresh `DISPONIBLE` licenses for the reseller and changes no existing row. |
| Store.Store.CreateReseller | src/controllers/superAdminController.js:43-108 | A missing business name, username, email or password fails with no change. A username or email already in use fails with no change. Otherwise one reseller is added with `total_licenses = n` (or 0 when `n` is absent or zero). When `n > 0`, exactly `n` new licenses are added for it, and no existing license changes. |
| Store.Store.AddLicenses | src/controllers/superAdminController.js:135-189 | A missing quantity or one below 1 fails with no change. An unknown reseller gives `NotFound` with no change. Otherwise exactly `quantity` new licenses are added for it, and its `total_licenses` grows by `quantity`. Other resellers and existing licenses are unchanged. |
| Store.Store.ToggleResellerStatus | src/controllers/superAdminController.js:192-220 | An unknown id gives `NotFound`. Otherwise `is_active` is negated, the new value is returned, and nothing else changes. |
| Scenarios.TwoTokensOneLicense | src/controllers/deviceController.js:78-106 | Two tokens minted on the same license, redeemed by two IMEIs that are not yet enrolled: the second redemption also succeeds with a new device 1. Both devices name license 0, and that license is `EN_USO` bound to the second IMEI. The store stays `Valid()`. |
| Scenarios.PullTwice | src/controllers/deviceController.js:169-193 | Two pulls with no enqueue in between: the first returns the device's pending commands, the second returns nothing. |
| Scenarios.ToggleTwice | src/controllers/superAdminController.js:196-203 | Toggling the same reseller twice restores the whole store. |
| Scenarios.ReportTwice | src/controllers/deviceController.js:139-154 | Reporting the same sample twice leaves the device as one report does, and appends two identical history records. |

## Left out

- Password hashing, login and bearer tokens are not modelled. This covers
  `hashPassword`, `comparePassword`, JWT issue and verify, and the role
  middleware. The caller's identity is a method parameter. The password is
  only checked for presence, and the stored digest is not part of the
  reseller row.
- Fresh values are not modelled structurally. Token values (uuids) are a
  parameter that the caller promises is new (`FreshSecret`). License keys
  are numbers from the counter `nextKey`.
- The QR payload and rendering, environment variables and the APK checksum
  are not modelled. Nor is the response text beyond the returned values.
- Read-only reporting is not modelled: the dashboards, `getDevices`,
  `getResellers`, `getAllDevices` and `getDeviceLocationHistory`.
- Concurrency is not modelled. Each handler is one atomic step. `getCommands`
  runs outside a transaction and `createReseller` checks uniqueness before
  `BEGIN`, but both are still modelled as atomic.
- Store faults are not modelled (the `catch` branches that answer 500). The
  one exception is the history insert for an unknown device, which assumes a
  foreign key from `location_history.device_id` to `devices`. The schema file
  is not part of this model.
- A failure while rendering the QR code in `generateEnrollmentQR` is not
  modelled. It happens after the `COMMIT`, so the `ROLLBACK` in its `catch`
  undoes nothing: the caller gets a 500 while the minted token stays stored.
  The model's mint always succeeds once a license is available.
- Schema defaults are assumptions, because the schema file is not part of
  this model:
  - a new license is `DISPONIBLE` with no IMEI;
  - a new command is `PENDING`;
  - `created_at`, `recorded_at` and `enrolled_at` default to `NOW()`;
  - a new reseller is active;
  - a new enrollment token has `is_used = false` (the mint does not set it,
    and redemption looks for `is_used = false`);
  - no two rows of `enrollment_tokens` share a `token` value.
- Coordinates and battery are values: coordinates are `real` and battery is
  an integer. Floating point, NaN and string-typed numbers are not modelled.
- `quantity` and `total_licenses` are integers. A fractional `quantity` is
  not modelled: 2.5 passes the `< 1` check and the loop would build 3 rows.
  `NOW()` is an integer parameter.
- `LIMIT 1` and `rows[0]` without `ORDER BY` pick some matching row. The
  model picks the first one in table order.
- Row ids are table positions. A missing or falsy id is `None`. A SERIAL id
  is never 0, so the JavaScript falsiness of id 0 never applies to an
  existing row.
- Store.Store.LockDevice: requires that `NOW()` is not earlier than any queued
  command (`ClockAhead`). Under this assumption, table order is
  `ORDER BY created_at` order. Among commands with equal `created_at`, for
  which SQL fixes no order, the model returns table order. Commands queued
  with a clock that runs backwards are not modelled.
- Store.Store.UnlockDevice: requires `ClockAhead`, for the same reason.
- Store.Store.GenerateEnrollmentToken: requires `FreshSecret`. Under this
  assumption, token values stay distinct, as the uuid generator promises.
