/**
 The write transactions of src/routes/admin.rs and src/routes/reseller.rs on the users, licence and request tables,
 with the key, uniqueness and foreign-key rules of migrations/0001_enterprise_licensing.sql. Who may ask for a
 transaction is decided in module Backoffice.
 */
module Database {
  import opened Models
  import Crypto

  datatype Db = Db(
    users: map<UserId, User>,
    licenses: map<LicenseId, License>,
    requests: map<RequestId, KeyRequest>)

  datatype Config = Config(maxBatch: Positive, digest: string -> Digest)

  type KeyBytes = bytes: seq<Crypto.Byte> | |bytes| == Crypto.KEY_BYTES witness seq(Crypto.KEY_BYTES, _ => 0)

  /** The random choices behind one new licence. */
  datatype Draw = Draw(id: LicenseId, bytes: KeyBytes)
  type Draws = nat -> Draw

  /** What all licences of one batch have in common. */
  datatype Terms = Terms(
    owner: Option<UserId>,
    creator: UserId,
    maxDevices: Positive,
    expiresAt: Option<Time>,
    origin: Option<RequestId>)

  datatype GeneratedLicense = GeneratedLicense(
    id: LicenseId,
    licenseKey: string,
    keyPrefix: string,
    owner: Option<UserId>,
    status: LicenseStatus,
    maxDevices: Positive,
    expiresAt: Option<Time>)

  datatype Txn =
    | InsertUser(id: UserId, user: User)
    | SetActive(id: UserId, isActive: bool)
    | BulkStatus(id: UserId, status: LicenseStatus)
    | DeleteUser(id: UserId)
    | LicenseUpdate(license: LicenseId, ownedBy: Option<UserId>, status: LicenseStatus)
    | InsertRequest(request: RequestId, reseller: UserId, quantity: Positive, maxDevices: Positive, ttlDays: Positive)
    | ApproveRequest(request: RequestId, admin: UserId, now: Time, draws: Draws)
    | RejectRequest(request: RequestId, admin: UserId)
    | GenerateKeys(terms: Terms, number: nat, draws: Draws)

  datatype Reply =
    | Done
    | Updated(count: nat)
    | Issued(keys: seq<GeneratedLicense>)

  datatype Effect = Effect(db: Db, reply: Reply)

  // ----- new licences

  /** A licence row together with its primary key. */
  datatype NewRow = NewRow(id: LicenseId, license: License)

  function NewLicense(cfg: Config, terms: Terms, draw: Draw): NewRow {
    var key := Crypto.KeyText(draw.bytes);
    NewRow(draw.id,
           License(Crypto.Prefix(key), cfg.digest(Crypto.Normalize(key)), terms.owner, Some(terms.creator), Active,
                   terms.maxDevices, terms.expiresAt, None, terms.origin))
  }

  function GeneratedAs(terms: Terms, draw: Draw): GeneratedLicense {
    var key := Crypto.KeyText(draw.bytes);
    GeneratedLicense(draw.id, key, Crypto.Prefix(key), terms.owner, Active, terms.maxDevices, terms.expiresAt)
  }

  function NewRows(cfg: Config, terms: Terms, draws: Draws, n: nat): (rows: seq<NewRow>)
    ensures |rows| == n
  {
    if n == 0 then [] else NewRows(cfg, terms, draws, n - 1) + [NewLicense(cfg, terms, draws(n - 1))]
  }

  function GeneratedBatch(terms: Terms, draws: Draws, n: nat): (keys: seq<GeneratedLicense>)
    ensures |keys| == n
  {
    if n == 0 then [] else GeneratedBatch(terms, draws, n - 1) + [GeneratedAs(terms, draws(n - 1))]
  }

  // ----- inserting licences

  /** Primary key and `key_hash UNIQUE`. */
  predicate IdOrHashTaken(licenses: map<LicenseId, License>, id: LicenseId, keyHash: Digest) {
    id in licenses || exists l :: l in licenses && licenses[l].keyHash == keyHash
  }

  predicate UserExists(users: map<UserId, User>, id: Option<UserId>) {
    id.Some? ==> id.value in users
  }

  function InsertLicense(users: map<UserId, User>, licenses: map<LicenseId, License>, row: NewRow)
    : Result<map<LicenseId, License>, AppError>
  {
    if IdOrHashTaken(licenses, row.id, row.license.keyHash) then Err(Conflict)
    else if !UserExists(users, row.license.owner) || !UserExists(users, row.license.createdBy) then Err(Internal)
    else Ok(licenses[row.id := row.license])
  }

  /** The generation loop: the first failing insert fails the batch. */
  function InsertBatch(users: map<UserId, User>, licenses: map<LicenseId, License>, rows: seq<NewRow>)
    : Result<map<LicenseId, License>, AppError>
  {
    if rows == [] then Ok(licenses)
    else
      var before := InsertBatch(users, licenses, rows[..|rows| - 1]);
      if before.Err? then before else InsertLicense(users, before.value, rows[|rows| - 1])
  }

  function IssueBatch(cfg: Config, db: Db, terms: Terms, draws: Draws, n: nat): Result<Effect, AppError> {
    var inserted := InsertBatch(db.users, db.licenses, NewRows(cfg, terms, draws, n));
    if inserted.Err? then Err(inserted.error)
    else Ok(Effect(db.(licenses := inserted.value), Issued(GeneratedBatch(terms, draws, n))))
  }

  // ----- the request review

  function TermsOf(id: RequestId, request: KeyRequest, admin: UserId, now: Time): Terms {
    Terms(Some(request.reseller), admin, request.maxDevices, Some(now + SECONDS_PER_DAY * request.ttlDays), Some(id))
  }

  /** Keys generated directly come from no request, whatever their metadata says. */
  function Direct(terms: Terms): Terms {
    terms.(origin := None)
  }

  function Reviewed(request: KeyRequest, status: RequestStatus, admin: UserId): KeyRequest {
    request.(status := status, reviewedBy := Some(admin))
  }

  // ----- statuses

  /** The rows a bulk change touches: resuming wakes only suspended keys, pausing only active ones. */
  predicate BulkApplies(change: LicenseStatus, current: LicenseStatus) {
    match change
    case Active => current == Suspended
    case Suspended => current == Active
    case Revoked => current != Revoked
  }

  predicate IsBulkTarget(license: License, owner: UserId, change: LicenseStatus) {
    license.owner == Some(owner) && BulkApplies(change, license.status)
  }

  function BulkTargets(licenses: map<LicenseId, License>, owner: UserId, change: LicenseStatus): set<LicenseId> {
    set l | l in licenses && IsBulkTarget(licenses[l], owner, change)
  }

  function BulkUpdated(licenses: map<LicenseId, License>, owner: UserId, change: LicenseStatus): map<LicenseId, License> {
    map l | l in licenses :: if IsBulkTarget(licenses[l], owner, change) then licenses[l].(status := change) else licenses[l]
  }

  // ----- deletion

  /** ON DELETE SET NULL. */
  function Unlink(reference: Option<UserId>, deleted: UserId): Option<UserId> {
    if reference == Some(deleted) then None else reference
  }

  /** DELETE FROM users: owner, creator and reviewer references become null, the user's requests go with it. */
  function DeleteRow(db: Db, id: UserId): Db {
    Db(db.users - {id},
       map l | l in db.licenses ::
         db.licenses[l].(owner := Unlink(db.licenses[l].owner, id), createdBy := Unlink(db.licenses[l].createdBy, id)),
       map r | r in db.requests && db.requests[r].reseller != id ::
         db.requests[r].(reviewedBy := Unlink(db.requests[r].reviewedBy, id)))
  }

  // ----- commit

  /** What a transaction leaves when it commits, or why it is rolled back. */
  function Commit(cfg: Config, db: Db, txn: Txn): Result<Effect, AppError> {
    match txn
    case InsertUser(id, user) =>
      if id in db.users || exists u :: u in db.users && db.users[u].email == user.email then Err(Conflict)
      else Ok(Effect(db.(users := db.users[id := user]), Done))
    case SetActive(id, isActive) =>
      if id !in db.users then Err(NotFound)
      else Ok(Effect(db.(users := db.users[id := db.users[id].(isActive := isActive)]), Done))
    case BulkStatus(owner, status) =>
      Ok(Effect(db.(licenses := BulkUpdated(db.licenses, owner, status)), Updated(|BulkTargets(db.licenses, owner, status)|)))
    case DeleteUser(id) =>
      if id !in db.users then Err(NotFound)
      else
        Ok(Effect(DeleteRow(db.(licenses := BulkUpdated(db.licenses, id, Suspended)), id),
                  Updated(|BulkTargets(db.licenses, id, Suspended)|)))
    case LicenseUpdate(l, ownedBy, status) =>
      if l !in db.licenses || (ownedBy.Some? && db.licenses[l].owner != ownedBy) then Err(NotFound)
      else Ok(Effect(db.(licenses := db.licenses[l := db.licenses[l].(status := status)]), Done))
    case InsertRequest(r, reseller, quantity, maxDevices, ttlDays) =>
      if r in db.requests then Err(Conflict)
      else if reseller !in db.users then Err(Internal)
      else Ok(Effect(db.(requests := db.requests[r := KeyRequest(reseller, quantity, maxDevices, ttlDays, Pending, None)]), Done))
    case ApproveRequest(r, admin, now, draws) =>
      if r !in db.requests then Err(NotFound)
      else if db.requests[r].status != Pending then Err(Conflict)
      else if db.requests[r].quantity > cfg.maxBatch then Err(BadRequest)
      else
        var request := db.requests[r];
        var issued := IssueBatch(cfg, db, TermsOf(r, request, admin, now), draws, request.quantity);
        if issued.Err? then issued
        else
          var requests := issued.value.db.requests[r := Reviewed(request, Approved, admin)];
          Ok(issued.value.(db := issued.value.db.(requests := requests)))
    case RejectRequest(r, admin) =>
      if r !in db.requests then Err(NotFound)
      else if db.requests[r].status != Pending then Err(Conflict)
      else if admin !in db.users then Err(Internal)
      else Ok(Effect(db.(requests := db.requests[r := Reviewed(db.requests[r], Rejected, admin)]), Done))
    case GenerateKeys(terms, number, draws) =>
      if number > cfg.maxBatch then Err(BadRequest)
      else IssueBatch(cfg, db, Direct(terms), draws, number)
  }

  /** An insert is refused for a taken id or hash, or for a user that is not there, and for nothing else. */
  lemma InsertFailsExactly(users: map<UserId, User>, licenses: map<LicenseId, License>, row: NewRow)
    ensures var taken := row.id in licenses || exists l :: l in licenses && licenses[l].keyHash == row.license.keyHash;
            var missing := (row.license.owner.Some? && row.license.owner.value !in users)
              || (row.license.createdBy.Some? && row.license.createdBy.value !in users);
            var outcome := InsertLicense(users, licenses, row);
            && (outcome == Err(Conflict) <==> taken) && (outcome == Err(Internal) <==> !taken && missing)
            && (outcome.Ok? <==> !taken && !missing)
  {
  }

  // ----- what a batch adds

  function RowIds(rows: seq<NewRow>): set<LicenseId> {
    if rows == [] then {} else RowIds(rows[..|rows| - 1]) + {rows[|rows| - 1].id}
  }

  ghost predicate AddsOnly(before: map<LicenseId, License>, ids: set<LicenseId>, after: map<LicenseId, License>) {
    && ids !! before.Keys && after.Keys == before.Keys + ids
    && forall l :: l in before ==> after[l] == before[l]
  }

  ghost predicate HoldsRows(licenses: map<LicenseId, License>, rows: seq<NewRow>) {
    forall i :: 0 <= i < |rows| ==> rows[i].id in licenses && licenses[rows[i].id] == rows[i].license
  }

  lemma AddsOneId(before: map<LicenseId, License>, ids: set<LicenseId>, mid: map<LicenseId, License>, row: NewRow)
    requires AddsOnly(before, ids, mid) && row.id !in mid
    ensures AddsOnly(before, ids + {row.id}, mid[row.id := row.license])
  {
  }

  lemma OneIdMore(before: map<LicenseId, License>, ids: set<LicenseId>, mid: map<LicenseId, License>, id: LicenseId)
    requires AddsOnly(before, ids, mid) && id !in mid
    ensures |ids + {id}| == |ids| + 1
  {
  }

  lemma HoldsOneMore(mid: map<LicenseId, License>, rows: seq<NewRow>)
    requires rows != [] && HoldsRows(mid, rows[..|rows| - 1]) && rows[|rows| - 1].id !in mid
    ensures HoldsRows(mid[rows[|rows| - 1].id := rows[|rows| - 1].license], rows)
  {
    var after := mid[rows[|rows| - 1].id := rows[|rows| - 1].license];
    forall i | 0 <= i < |rows| ensures rows[i].id in after && after[rows[i].id] == rows[i].license {
      assert i < |rows| - 1 ==> rows[..|rows| - 1][i] == rows[i];
    }
  }

  lemma AddsOneRow(licenses: map<LicenseId, License>, rows: seq<NewRow>, init: seq<NewRow>, last: NewRow,
                   mid: map<LicenseId, License>, after: map<LicenseId, License>)
    requires after == mid[last.id := last.license]
    requires rows != [] && init == rows[..|rows| - 1] && last == rows[|rows| - 1] && last.id !in mid
    requires |RowIds(init)| == |init| && AddsOnly(licenses, RowIds(init), mid) && HoldsRows(mid, init)
    ensures |RowIds(rows)| == |rows| && AddsOnly(licenses, RowIds(rows), after) && HoldsRows(after, rows)
  {
    AddsOneId(licenses, RowIds(init), mid, last);
    OneIdMore(licenses, RowIds(init), mid, last.id);
    HoldsOneMore(mid, rows);
  }

  /** A committed batch adds exactly its distinct new rows and changes nothing else. */
  lemma {:induction false} BatchAdds(users: map<UserId, User>, licenses: map<LicenseId, License>, rows: seq<NewRow>)
    requires InsertBatch(users, licenses, rows).Ok?
    ensures var after := InsertBatch(users, licenses, rows).value;
            |RowIds(rows)| == |rows| && AddsOnly(licenses, RowIds(rows), after) && HoldsRows(after, rows)
  {
    if rows == [] {
    } else {
      var init, last := rows[..|rows| - 1], rows[|rows| - 1];
      BatchAdds(users, licenses, init);
      AddsOneRow(licenses, rows, init, last, InsertBatch(users, licenses, init).value, InsertBatch(users, licenses, rows).value);
    }
  }

  /** Every row of a committed batch names existing users only. */
  lemma {:induction false} BatchUsersExist(users: map<UserId, User>, licenses: map<LicenseId, License>, rows: seq<NewRow>)
    requires InsertBatch(users, licenses, rows).Ok?
    ensures forall i :: 0 <= i < |rows| ==>
        UserExists(users, rows[i].license.owner) && UserExists(users, rows[i].license.createdBy)
  {
    if rows == [] {
    } else {
      BatchUsersExist(users, licenses, rows[..|rows| - 1]);
    }
  }

  lemma {:induction false} BatchKeepsHashesUnique(users: map<UserId, User>, licenses: map<LicenseId, License>, rows: seq<NewRow>)
    requires InsertBatch(users, licenses, rows).Ok? && UniqueHashes(licenses)
    ensures UniqueHashes(InsertBatch(users, licenses, rows).value)
  {
    if rows == [] {
    } else {
      BatchKeepsHashesUnique(users, licenses, rows[..|rows| - 1]);
    }
  }

  /** The i-th row and the i-th plaintext returned come from the i-th draw. */
  lemma {:induction false} RowsAndKeysAt(cfg: Config, terms: Terms, draws: Draws, n: nat, i: nat)
    requires i < n
    ensures NewRows(cfg, terms, draws, n)[i] == NewLicense(cfg, terms, draws(i))
    ensures GeneratedBatch(terms, draws, n)[i] == GeneratedAs(terms, draws(i))
  {
    if i < n - 1 {
      RowsAndKeysAt(cfg, terms, draws, n - 1, i);
    }
  }
}
