/**
 The administrator and reseller handlers of src/routes/admin.rs and src/routes/reseller.rs, one call at a time: the
 checks of src/security.rs, the field and state checks, and then one transaction of module Database.
 */
module Backoffice {
  import opened Models
  import opened Database
  import Crypto
  import Ledger

  datatype Call =
    | CreateUser(actor: UserId, id: UserId, email: string, role: Option<Role>, activeFlag: Option<bool>)
    | SetUserStatus(actor: UserId, id: UserId, isActive: bool)
    | SetUserLicenses(actor: UserId, id: UserId, status: LicenseStatus)
    | RemoveUser(actor: UserId, id: UserId)
    | SetLicense(actor: UserId, license: LicenseId, status: LicenseStatus)
    | SetMyLicense(actor: UserId, license: LicenseId, status: LicenseStatus)
    | RequestKeys(actor: UserId, request: RequestId, number: int, maxDevices: int, lifetime: int)
    | Approve(actor: UserId, request: RequestId, now: Time, draws: Draws)
    | Reject(actor: UserId, request: RequestId)
    | Generate(actor: UserId, owner: Option<UserId>, quantity: Option<int>, maxDevices: int,
               expiresAt: Option<Time>, ttlDays: Option<int>, now: Time, draws: Draws)

  const MAX_REQUEST_QUANTITY := 1000
  const MAX_DEVICES := 100000
  const MAX_TTL_DAYS := 36500

  // ----- checks

  /** `require_user` and the role test: an unknown or inactive account is unauthorized, the wrong role forbidden. */
  function RequireRole(users: map<UserId, User>, actor: UserId, role: Role): Option<AppError> {
    if actor !in users || !users[actor].isActive then Some(Unauthorized)
    else if users[actor].role != role then Some(Forbidden)
    else None
  }

  function DefaultTo<T>(value: Option<T>, default: T): T {
    if value.Some? then value.value else default
  }

  predicate ValidRequest(quantity: int, maxDevices: int, ttlDays: int) {
    1 <= quantity <= MAX_REQUEST_QUANTITY && 1 <= maxDevices <= MAX_DEVICES && 1 <= ttlDays <= MAX_TTL_DAYS
  }

  predicate ValidGeneration(quantity: Option<int>, maxDevices: int, ttlDays: Option<int>) {
    && (quantity.Some? ==> 1 <= quantity.value) && 1 <= maxDevices <= MAX_DEVICES
    && (ttlDays.Some? ==> 1 <= ttlDays.value <= MAX_TTL_DAYS)
  }

  function GenerationExpiry(expiresAt: Option<Time>, ttlDays: Option<int>, now: Time): Option<Time> {
    if ttlDays.Some? then Some(now + SECONDS_PER_DAY * ttlDays.value) else expiresAt
  }

  predicate IsActiveUser(users: map<UserId, User>, id: UserId) {
    id in users && users[id].isActive
  }

  /** The checks of `create_licenses_for_owner`. */
  function CheckGeneration(cfg: Config, users: map<UserId, User>, actor: UserId, owner: Option<UserId>, quantity: Option<int>,
                           maxDevices: int, expiresAt: Option<Time>, ttlDays: Option<int>, now: Time, draws: Draws)
    : Result<Txn, AppError>
    requires ValidGeneration(quantity, maxDevices, ttlDays)
  {
    if DefaultTo(quantity, 1) > cfg.maxBatch then Err(BadRequest)
    else if expiresAt.Some? && ttlDays.Some? then Err(BadRequest)
    else if owner.Some? && !IsActiveUser(users, owner.value) then Err(BadRequest)
    else
      Ok(GenerateKeys(Terms(owner, actor, maxDevices, GenerationExpiry(expiresAt, ttlDays, now), None),
                      DefaultTo(quantity, 1), draws))
  }

  /** Everything a handler checks before its transaction, in its order; the result is the transaction. */
  function Check(cfg: Config, db: Db, call: Call): Result<Txn, AppError> {
    match call
    case CreateUser(actor, id, email, role, isActive) =>
      var refused := RequireRole(db.users, actor, Admin);
      if refused.Some? then Err(refused.value)
      else Ok(InsertUser(id, User(email, DefaultTo(role, Reseller), DefaultTo(isActive, true))))
    case SetUserStatus(actor, id, isActive) =>
      var refused := RequireRole(db.users, actor, Admin);
      if refused.Some? then Err(refused.value)
      else if actor == id && !isActive then Err(BadRequest)
      else Ok(SetActive(id, isActive))
    case SetUserLicenses(actor, id, status) =>
      var refused := RequireRole(db.users, actor, Admin);
      if refused.Some? then Err(refused.value)
      else if id !in db.users then Err(NotFound)
      else Ok(BulkStatus(id, status))
    case RemoveUser(actor, id) =>
      var refused := RequireRole(db.users, actor, Admin);
      if refused.Some? then Err(refused.value)
      else if actor == id then Err(BadRequest)
      else if id !in db.users then Err(NotFound)
      else Ok(DeleteUser(id))
    case SetLicense(actor, l, status) =>
      var refused := RequireRole(db.users, actor, Admin);
      if refused.Some? then Err(refused.value) else Ok(LicenseUpdate(l, None, status))
    case SetMyLicense(actor, l, status) =>
      var refused := RequireRole(db.users, actor, Reseller);
      if refused.Some? then Err(refused.value) else Ok(LicenseUpdate(l, Some(actor), status))
    case RequestKeys(actor, r, quantity, maxDevices, ttlDays) =>
      if !ValidRequest(quantity, maxDevices, ttlDays) then Err(Validation)
      else
        var refused := RequireRole(db.users, actor, Reseller);
        if refused.Some? then Err(refused.value)
        else if quantity > cfg.maxBatch then Err(BadRequest)
        else Ok(InsertRequest(r, actor, quantity, maxDevices, ttlDays))
    case Approve(actor, r, now, draws) =>
      var refused := RequireRole(db.users, actor, Admin);
      if refused.Some? then Err(refused.value) else Ok(ApproveRequest(r, actor, now, draws))
    case Reject(actor, r) =>
      var refused := RequireRole(db.users, actor, Admin);
      if refused.Some? then Err(refused.value) else Ok(RejectRequest(r, actor))
    case Generate(actor, owner, quantity, maxDevices, expiresAt, ttlDays, now, draws) =>
      if !ValidGeneration(quantity, maxDevices, ttlDays) then Err(Validation)
      else
        var refused := RequireRole(db.users, actor, Admin);
        if refused.Some? then Err(refused.value)
        else CheckGeneration(cfg, db.users, actor, owner, quantity, maxDevices, expiresAt, ttlDays, now, draws)
  }

  /** A handler: its checks, then its transaction. */
  function Handle(cfg: Config, db: Db, call: Call): Result<Effect, AppError> {
    Outcome(cfg, db, Check(cfg, db, call))
  }

  function Outcome(cfg: Config, db: Db, checked: Result<Txn, AppError>): Result<Effect, AppError> {
    if checked.Err? then Err(checked.error) else Commit(cfg, db, checked.value)
  }

  /** What the caller sees and what is stored agree with the outcome; a failed call changes nothing. */
  predicate Carried(outcome: Result<Effect, AppError>, before: Db, after: Db, r: Result<Reply, AppError>) {
    match outcome
    case Ok(effect) => after == effect.db && r == Ok(effect.reply)
    case Err(e) => after == before && r == Err(e)
  }

  // ----- an administrator always remains

  predicate IsActiveAdmin(db: Db, id: UserId) {
    id in db.users && db.users[id].isActive && db.users[id].role == Admin
  }

  ghost predicate HasActiveAdmin(db: Db) {
    exists id :: IsActiveAdmin(db, id)
  }

  /** A call either leaves every active administrator in place or was made by one who is still there afterwards. */
  lemma ActorRemains(cfg: Config, db: Db, call: Call)
    requires Handle(cfg, db, call).Ok?
    ensures var after := Handle(cfg, db, call).value.db;
            (forall id :: IsActiveAdmin(db, id) ==> IsActiveAdmin(after, id))
            || (IsActiveAdmin(db, call.actor) && IsActiveAdmin(after, call.actor))
  {
  }

  ghost function Serve(cfg: Config, db: Db, calls: seq<Call>): Db {
    if calls == [] then db
    else
      var before := Serve(cfg, db, calls[..|calls| - 1]);
      var outcome := Handle(cfg, before, calls[|calls| - 1]);
      if outcome.Ok? then outcome.value.db else before
  }

  /** Calls served one after the other never lock the administrators out. */
  lemma {:induction false} AdministratorRemains(cfg: Config, db: Db, calls: seq<Call>)
    requires HasActiveAdmin(db)
    ensures HasActiveAdmin(Serve(cfg, db, calls))
  {
    if calls == [] {
    } else {
      AdministratorRemains(cfg, db, calls[..|calls| - 1]);
      var before, last := Serve(cfg, db, calls[..|calls| - 1]), calls[|calls| - 1];
      if Handle(cfg, before, last).Ok? {
        ActorRemains(cfg, before, last);
      }
    }
  }

  // ----- what accounts other than active administrators can do

  predicate IsActiveReseller(db: Db, id: UserId) {
    id in db.users && db.users[id].isActive && db.users[id].role == Reseller
  }

  /** All that has happened is that keys the actors own changed status and that the actors filed new requests. */
  ghost predicate WithinReach(before: Db, after: Db, actors: set<UserId>) {
    && after.users == before.users && after.licenses.Keys == before.licenses.Keys
    && (forall l :: l in before.licenses ==>
          && after.licenses[l] == before.licenses[l].(status := after.licenses[l].status)
          && (before.licenses[l].owner.None? || before.licenses[l].owner.value !in actors ==>
                after.licenses[l] == before.licenses[l]))
    && (forall r :: r in before.requests ==> r in after.requests && after.requests[r] == before.requests[r])
    && (forall r :: r in after.requests && r !in before.requests ==>
          after.requests[r].reseller in actors && after.requests[r].status == Pending && after.requests[r].reviewedBy.None?)
  }

  lemma CallStaysWithinReach(cfg: Config, db: Db, call: Call, actors: set<UserId>)
    requires Handle(cfg, db, call).Ok? && call.actor in actors && !IsActiveAdmin(db, call.actor)
    ensures WithinReach(db, Handle(cfg, db, call).value.db, actors)
  {
  }

  lemma ReachIsTransitive(a: Db, b: Db, c: Db, actors: set<UserId>)
    requires WithinReach(a, b, actors) && WithinReach(b, c, actors)
    ensures WithinReach(a, c, actors)
  {
  }

  /** Authorisation: whatever calls resellers, inactive administrators and strangers make, in whatever order, they
      change no account, no key of anybody else, no existing request, and issue nothing. */
  lemma {:induction false} OthersStayWithinReach(cfg: Config, db: Db, calls: seq<Call>, actors: set<UserId>)
    requires forall i :: 0 <= i < |calls| ==> calls[i].actor in actors && !IsActiveAdmin(db, calls[i].actor)
    ensures WithinReach(db, Serve(cfg, db, calls), actors)
  {
    if calls == [] {
    } else {
      var before, last := Serve(cfg, db, calls[..|calls| - 1]), calls[|calls| - 1];
      OthersStayWithinReach(cfg, db, calls[..|calls| - 1], actors);
      if Handle(cfg, before, last).Ok? {
        CallStaysWithinReach(cfg, before, last, actors);
        ReachIsTransitive(db, before, Handle(cfg, before, last).value.db, actors);
      }
    }
  }

  // ----- who can bring a revoked key back

  /** A single-key change, by an administrator or by the owner, to a status other than revoked. */
  predicate IsLift(call: Call, l: LicenseId) {
    (call.SetLicense? || call.SetMyLicense?) && call.license == l && call.status != Revoked
  }

  predicate MayLift(db: Db, actor: UserId, l: LicenseId) {
    || IsActiveAdmin(db, actor)
    || (IsActiveReseller(db, actor) && l in db.licenses && db.licenses[l].owner == Some(actor))
  }

  /** A successful call brings a revoked key back if and only if it is such a change, and only those who may can make
      one. */
  lemma CallLiftsRevocation(cfg: Config, db: Db, call: Call, l: LicenseId)
    requires Handle(cfg, db, call).Ok? && Ledger.IsRevoked(db, l)
    ensures !Ledger.IsRevoked(Handle(cfg, db, call).value.db, l) <==> IsLift(call, l)
    ensures IsLift(call, l) ==> MayLift(db, call.actor, l)
  {
    Ledger.RevocationLifted(cfg, db, Check(cfg, db, call).value, l);
  }

  /** The owning reseller, not only an administrator, can reactivate its revoked key. */
  lemma OwnerRevivesKey(cfg: Config, db: Db, actor: UserId, l: LicenseId)
    requires IsActiveReseller(db, actor) && Ledger.IsRevoked(db, l) && db.licenses[l].owner == Some(actor)
    ensures var outcome := Handle(cfg, db, SetMyLicense(actor, l, Active));
            && outcome.Ok? && l in outcome.value.db.licenses && outcome.value.db.licenses[l].status == Active
  {
  }

  ghost predicate Revives(cfg: Config, db: Db, call: Call, l: LicenseId) {
    Handle(cfg, db, call).Ok? && !Ledger.IsRevoked(Handle(cfg, db, call).value.db, l)
  }

  /** Some call of the actor brings the revoked key back exactly when the actor is an active administrator or the active
      reseller that owns the key. */
  lemma WhoCanRevive(cfg: Config, db: Db, actor: UserId, l: LicenseId)
    requires Ledger.IsRevoked(db, l)
    ensures MayLift(db, actor, l) <==> exists call: Call :: call.actor == actor && Revives(cfg, db, call, l)
  {
    forall call: Call | Revives(cfg, db, call, l) ensures MayLift(db, call.actor, l) {
      CallLiftsRevocation(cfg, db, call, l);
    }
    if MayLift(db, actor, l) {
      var call := if IsActiveAdmin(db, actor) then SetLicense(actor, l, Active) else SetMyLicense(actor, l, Active);
      CallLiftsRevocation(cfg, db, call, l);
      assert Revives(cfg, db, call, l);
    }
  }

  // ----- inactive owners

  /** What a successful direct generation was asked to do, and by whom. */
  lemma GenerationAsked(cfg: Config, db: Db, call: Call, effect: Effect) returns (terms: Terms, number: nat)
    requires call.Generate? && Handle(cfg, db, call) == Ok(effect)
    ensures IsActiveAdmin(db, call.actor) && (call.owner.Some? ==> IsActiveUser(db.users, call.owner.value))
    ensures terms.owner == call.owner && terms.creator == call.actor && terms.origin == None
    ensures terms.maxDevices == call.maxDevices
    ensures terms.expiresAt == GenerationExpiry(call.expiresAt, call.ttlDays, call.now)
    ensures number == DefaultTo(call.quantity, 1) <= cfg.maxBatch
    ensures IssueBatch(cfg, db, terms, call.draws, number) == Ok(effect)
  {
    var txn := Check(cfg, db, call).value;
    terms, number := txn.terms, txn.number;
  }

  lemma BatchResult(cfg: Config, db: Db, terms: Terms, draws: Draws, n: nat, effect: Effect)
    requires IssueBatch(cfg, db, terms, draws, n) == Ok(effect)
    ensures effect.db.users == db.users && effect.reply.Issued? && |effect.reply.keys| == n
    ensures |effect.db.licenses| == |db.licenses| + n
    ensures forall l :: l in db.licenses ==> l in effect.db.licenses && effect.db.licenses[l] == db.licenses[l]
  {
    BatchAdds(db.users, db.licenses, NewRows(cfg, terms, draws, n));
    Ledger.BatchCount(db, NewRows(cfg, terms, draws, n));
  }

  lemma OrderedExpiry(expiresAt: Option<Time>, ttlDays: Option<int>, now: Time)
    ensures match ttlDays
            case Some(days) => GenerationExpiry(expiresAt, ttlDays, now) == Some(now + days * 24 * 60 * 60)
            case None => GenerationExpiry(expiresAt, ttlDays, now) == expiresAt
  {
  }

  /** Every licence that direct generation adds is unowned or has an owner that is an active account, and was created by
      an active administrator. */
  lemma DirectKeysHaveActiveOwner(cfg: Config, db: Db, call: Call, effect: Effect, after: Db, l: LicenseId)
    requires call.Generate? && Handle(cfg, db, call) == Ok(effect) && after == effect.db
    requires l in after.licenses && l !in db.licenses
    ensures after.licenses[l].owner == call.owner && (call.owner.Some? ==> IsActiveUser(after.users, call.owner.value))
    ensures after.licenses[l].createdBy == Some(call.actor) && IsActiveAdmin(after, call.actor)
    ensures after.licenses[l].maxDevices == call.maxDevices && after.licenses[l].status == Active
    ensures match call.ttlDays
            case Some(days) => after.licenses[l].expiresAt == Some(call.now + days * 24 * 60 * 60)
            case None => after.licenses[l].expiresAt == call.expiresAt
  {
    DirectKeyRow(cfg, db, call, effect, l);
    OrderedExpiry(call.expiresAt, call.ttlDays, call.now);
  }

  lemma DirectKeyRow(cfg: Config, db: Db, call: Call, effect: Effect, l: LicenseId)
    requires call.Generate? && Handle(cfg, db, call) == Ok(effect) && l in effect.db.licenses && l !in db.licenses
    ensures effect.db.users == db.users && IsActiveAdmin(db, call.actor)
    ensures call.owner.Some? ==> IsActiveUser(db.users, call.owner.value)
    ensures var row := effect.db.licenses[l];
            && row.owner == call.owner && row.createdBy == Some(call.actor) && row.status == Active
            && row.maxDevices == call.maxDevices && row.expiresAt == GenerationExpiry(call.expiresAt, call.ttlDays, call.now)
  {
    var terms, number := GenerationAsked(cfg, db, call, effect);
    NewInBatch(cfg, db, terms, call.draws, number, effect, l);
  }

  lemma NewInBatch(cfg: Config, db: Db, terms: Terms, draws: Draws, n: nat, effect: Effect, l: LicenseId)
    requires IssueBatch(cfg, db, terms, draws, n) == Ok(effect) && l in effect.db.licenses && l !in db.licenses
    ensures effect.db.users == db.users
    ensures var row := effect.db.licenses[l];
            && row.owner == terms.owner && row.createdBy == Some(terms.creator) && row.status == Active
            && row.maxDevices == terms.maxDevices && row.expiresAt == terms.expiresAt
  {
    Ledger.NewLicensesCarryTerms(cfg, db, terms, draws, n, l);
  }

  lemma {:induction false} BatchReadsOnlyIds(users: map<UserId, User>, users': map<UserId, User>,
                                             licenses: map<LicenseId, License>, rows: seq<NewRow>)
    requires users.Keys == users'.Keys
    ensures InsertBatch(users, licenses, rows) == InsertBatch(users', licenses, rows)
  {
    if rows == [] {
    } else {
      BatchReadsOnlyIds(users, users', licenses, rows[..|rows| - 1]);
      assert forall u :: u in users <==> u in users';
    }
  }

  /** An approval asks nothing about the reseller: with any accounts under the same ids, active or not, it fails in the
      same way or issues the same keys. */
  lemma ApprovalIgnoresAccounts(cfg: Config, db: Db, users: map<UserId, User>, txn: Txn)
    requires txn.ApproveRequest? && users.Keys == db.users.Keys
    ensures match Commit(cfg, db, txn)
            case Err(e) => Commit(cfg, db.(users := users), txn) == Err(e)
            case Ok(effect) => Commit(cfg, db.(users := users), txn) == Ok(effect.(db := effect.db.(users := users)))
  {
    if txn.request in db.requests {
      var request := db.requests[txn.request];
      BatchReadsOnlyIds(db.users, users, db.licenses,
                        NewRows(cfg, TermsOf(txn.request, request, txn.admin, txn.now), txn.draws, request.quantity));
    }
  }

  // ----- the generation loop and the specification of a batch

  lemma {:induction false} NewRowsPrefix(cfg: Config, terms: Terms, draws: Draws, n: nat, i: nat)
    requires i <= n
    ensures NewRows(cfg, terms, draws, n)[..i] == NewRows(cfg, terms, draws, i)
  {
    var rows := NewRows(cfg, terms, draws, n);
    if i == n {
      assert rows[..i] == rows;
    } else {
      NewRowsPrefix(cfg, terms, draws, n - 1, i);
      assert rows[..n - 1] == NewRows(cfg, terms, draws, n - 1);
      assert rows[..n - 1][..i] == rows[..i];
    }
  }

  lemma {:induction false} BatchFailsEarly(users: map<UserId, User>, licenses: map<LicenseId, License>, rows: seq<NewRow>, i: nat)
    requires i <= |rows| && InsertBatch(users, licenses, rows[..i]).Err?
    ensures InsertBatch(users, licenses, rows) == InsertBatch(users, licenses, rows[..i])
  {
    if i == |rows| {
      assert rows[..i] == rows;
    } else {
      assert rows[..|rows| - 1][..i] == rows[..i];
      BatchFailsEarly(users, licenses, rows[..|rows| - 1], i);
    }
  }

  lemma NextRow(cfg: Config, users: map<UserId, User>, licenses: map<LicenseId, License>, terms: Terms, draws: Draws,
                i: nat, tx: map<LicenseId, License>)
    requires InsertBatch(users, licenses, NewRows(cfg, terms, draws, i)) == Ok(tx)
    ensures InsertBatch(users, licenses, NewRows(cfg, terms, draws, i + 1))
         == InsertLicense(users, tx, NewLicense(cfg, terms, draws(i)))
  {
    var rows := NewRows(cfg, terms, draws, i + 1);
    assert rows[..i] == NewRows(cfg, terms, draws, i);
  }

  lemma FailingRow(cfg: Config, users: map<UserId, User>, licenses: map<LicenseId, License>, terms: Terms, draws: Draws,
                   n: nat, i: nat, tx: map<LicenseId, License>, failed: Result<map<LicenseId, License>, AppError>)
    requires i < n && InsertBatch(users, licenses, NewRows(cfg, terms, draws, i)) == Ok(tx)
    requires failed == InsertLicense(users, tx, NewLicense(cfg, terms, draws(i))) && failed.Err?
    ensures InsertBatch(users, licenses, NewRows(cfg, terms, draws, n)) == failed
  {
    NextRow(cfg, users, licenses, terms, draws, i, tx);
    NewRowsPrefix(cfg, terms, draws, n, i + 1);
    BatchFailsEarly(users, licenses, NewRows(cfg, terms, draws, n), i + 1);
  }

  lemma GenerateCommits(cfg: Config, db: Db, terms: Terms, number: nat, draws: Draws, issued: Result<Effect, AppError>)
    requires number <= cfg.maxBatch && terms.origin == None && issued == IssueBatch(cfg, db, terms, draws, number)
    ensures Commit(cfg, db, GenerateKeys(terms, number, draws)) == issued
  {
    assert Direct(terms) == terms;
  }

  lemma ApprovalCommits(cfg: Config, db: Db, r: RequestId, request: KeyRequest, admin: UserId, now: Time, draws: Draws,
                        issued: Result<Effect, AppError>)
    requires r in db.requests && db.requests[r] == request && request.status == Pending && request.quantity <= cfg.maxBatch
    requires issued == IssueBatch(cfg, db, TermsOf(r, request, admin, now), draws, request.quantity)
    ensures Commit(cfg, db, ApproveRequest(r, admin, now, draws))
         == if issued.Err? then issued
            else Ok(Effect(issued.value.db.(requests := db.requests[r := Reviewed(request, Approved, admin)]), issued.value.reply))
  {
  }

  lemma {:induction false} BatchErrors(users: map<UserId, User>, licenses: map<LicenseId, License>, rows: seq<NewRow>)
    requires InsertBatch(users, licenses, rows).Err?
    ensures InsertBatch(users, licenses, rows).error in {Conflict, Internal}
  {
    if rows == [] {
    } else if InsertBatch(users, licenses, rows[..|rows| - 1]).Err? {
      BatchErrors(users, licenses, rows[..|rows| - 1]);
    }
  }

  lemma SuspendedOnly(cfg: Config, db: Db, id: UserId, after: Db)
    requires Commit(cfg, db, DeleteUser(id)).Ok? && after == Commit(cfg, db, DeleteUser(id)).value.db
    ensures Commit(cfg, db, DeleteUser(id)).value.reply
         == Updated(|set l | l in after.licenses && after.licenses[l].status != db.licenses[l].status|)
  {
    assert BulkTargets(db.licenses, id, Suspended)
        == set l | l in after.licenses && after.licenses[l].status != db.licenses[l].status;
  }

  /** Too many keys, two expiries, or an owner that is no active account. */
  ghost predicate GenerationFails(cfg: Config, users: map<UserId, User>, owner: Option<UserId>, quantity: Option<int>,
                                  expiresAt: Option<Time>, ttlDays: Option<int>)
  {
    || (if quantity.Some? then quantity.value else 1) > cfg.maxBatch
    || (expiresAt.Some? && ttlDays.Some?)
    || (owner.Some? && !(owner.value in users && users[owner.value].isActive))
  }

  lemma FailedChecks(cfg: Config, db: Db, actor: UserId, owner: Option<UserId>, quantity: Option<int>, maxDevices: int,
                     expiresAt: Option<Time>, ttlDays: Option<int>, now: Time, draws: Draws)
    requires ValidGeneration(quantity, maxDevices, ttlDays)
    ensures GenerationFails(cfg, db.users, owner, quantity, expiresAt, ttlDays) ==>
        Outcome(cfg, db, CheckGeneration(cfg, db.users, actor, owner, quantity, maxDevices, expiresAt, ttlDays, now, draws))
        == Err(BadRequest)
  {
  }

  lemma PassedChecks(cfg: Config, db: Db, actor: UserId, owner: Option<UserId>, quantity: Option<int>, maxDevices: int,
                     expiresAt: Option<Time>, ttlDays: Option<int>, now: Time, draws: Draws, terms: Terms, number: nat)
    requires ValidGeneration(quantity, maxDevices, ttlDays)
    requires !GenerationFails(cfg, db.users, owner, quantity, expiresAt, ttlDays)
    requires number == if quantity.Some? then quantity.value else 1
    requires terms == Terms(owner, actor, maxDevices, GenerationExpiry(expiresAt, ttlDays, now), None)
    ensures Outcome(cfg, db, CheckGeneration(cfg, db.users, actor, owner, quantity, maxDevices, expiresAt, ttlDays, now, draws))
         == Commit(cfg, db, GenerateKeys(terms, number, draws))
    ensures terms.expiresAt == if ttlDays.Some? then Some(now + ttlDays.value * 24 * 60 * 60) else expiresAt
  {
  }

  /** A bulk change that was made gives the owner's unrevoked keys the status; all other keys keep theirs. */
  ghost predicate StatusesSet(before: map<LicenseId, License>, after: map<LicenseId, License>, owner: UserId,
                              status: LicenseStatus, done: bool)
    requires before.Keys == after.Keys
  {
    forall l :: l in before ==>
      (if done && before[l].owner == Some(owner) && before[l].status != Revoked then after[l].status == status
       else after[l].status == before[l].status)
  }

  /** Who is let in: an unknown or switched-off account is unauthorized, one of the other role forbidden. */
  ghost predicate Admission(users: map<UserId, User>, actor: UserId, role: Role, r: Result<Reply, AppError>) {
    && (actor !in users || !users[actor].isActive ==> r == Err(Unauthorized))
    && (actor in users && users[actor].isActive && users[actor].role != role ==> r == Err(Forbidden))
    && (actor in users && users[actor].isActive && users[actor].role == role ==> r != Err(Unauthorized) && r != Err(Forbidden))
  }

  /** The licences that are new in `after`, as their batch was to be. */
  ghost predicate NewOnesCarry(before: map<LicenseId, License>, after: map<LicenseId, License>, owner: Option<UserId>,
                               creator: UserId, maxDevices: int, expiresAt: Option<Time>)
  {
    forall l :: l in after && l !in before ==>
      && after[l].owner == owner && after[l].createdBy == Some(creator) && after[l].status == Active
      && after[l].maxDevices == maxDevices && after[l].expiresAt == expiresAt && after[l].lastVerifiedAt == None
  }

  lemma BatchCarries(cfg: Config, db: Db, terms: Terms, draws: Draws, n: nat, after: map<LicenseId, License>)
    requires InsertBatch(db.users, db.licenses, NewRows(cfg, terms, draws, n)) == Ok(after)
    ensures NewOnesCarry(db.licenses, after, terms.owner, terms.creator, terms.maxDevices, terms.expiresAt)
    ensures |after| == |db.licenses| + n && forall l :: l in db.licenses ==> l in after && after[l] == db.licenses[l]
  {
    BatchAdds(db.users, db.licenses, NewRows(cfg, terms, draws, n));
    Ledger.BatchCount(db, NewRows(cfg, terms, draws, n));
    forall l | l in after && l !in db.licenses
      ensures after[l].owner == terms.owner && after[l].createdBy == Some(terms.creator) && after[l].status == Active
      ensures after[l].maxDevices == terms.maxDevices && after[l].expiresAt == terms.expiresAt && after[l].lastVerifiedAt == None
    {
      Ledger.NewLicensesCarryTerms(cfg, db, terms, draws, n, l);
    }
  }

  /** What an approval leaves behind: the request is approved by the administrator, and as many keys as it asks for are
      returned and stored, with the request's terms. */
  ghost predicate ApprovedInto(before: Db, after: Db, reply: Reply, id: RequestId, actor: UserId, now: Time) {
    && id in before.requests && reply.Issued? && |reply.keys| == before.requests[id].quantity
    && NewOnesCarry(before.licenses, after.licenses, Some(before.requests[id].reseller), actor,
                    before.requests[id].maxDevices, Some(now + before.requests[id].ttlDays * 24 * 60 * 60))
    && |after.licenses| == |before.licenses| + before.requests[id].quantity
    && after.requests == before.requests[id := before.requests[id].(status := Approved, reviewedBy := Some(actor))]
    && forall l :: l in before.licenses ==> l in after.licenses && after.licenses[l] == before.licenses[l]
  }

  lemma ApprovalSplit(cfg: Config, db: Db, id: RequestId, actor: UserId, now: Time, draws: Draws, effect: Effect)
    returns (issued: Effect)
    requires Commit(cfg, db, ApproveRequest(id, actor, now, draws)) == Ok(effect)
    ensures id in db.requests
    ensures IssueBatch(cfg, db, TermsOf(id, db.requests[id], actor, now), draws, db.requests[id].quantity) == Ok(issued)
    ensures effect == Effect(issued.db.(requests := db.requests[id := Reviewed(db.requests[id], Approved, actor)]), issued.reply)
  {
    var batch := IssueBatch(cfg, db, TermsOf(id, db.requests[id], actor, now), draws, db.requests[id].quantity);
    ApprovalCommits(cfg, db, id, db.requests[id], actor, now, draws, batch);
    issued := batch.value;
  }

  lemma BatchEffect(cfg: Config, db: Db, terms: Terms, draws: Draws, n: nat, effect: Effect)
    requires IssueBatch(cfg, db, terms, draws, n) == Ok(effect)
    ensures NewOnesCarry(db.licenses, effect.db.licenses, terms.owner, terms.creator, terms.maxDevices, terms.expiresAt)
    ensures effect.reply.Issued? && |effect.reply.keys| == n && |effect.db.licenses| == |db.licenses| + n
    ensures forall l :: l in db.licenses ==> l in effect.db.licenses && effect.db.licenses[l] == db.licenses[l]
  {
    BatchCarries(cfg, db, terms, draws, n, effect.db.licenses);
  }

  lemma ApprovalAdds(cfg: Config, db: Db, id: RequestId, actor: UserId, now: Time, draws: Draws, effect: Effect)
    requires Commit(cfg, db, ApproveRequest(id, actor, now, draws)) == Ok(effect)
    ensures ApprovedInto(db, effect.db, effect.reply, id, actor, now)
  {
    var issued := ApprovalSplit(cfg, db, id, actor, now, draws, effect);
    BatchEffect(cfg, db, TermsOf(id, db.requests[id], actor, now), draws, db.requests[id].quantity, issued);
  }

  class Server {
    const cfg: Config
    var users: map<UserId, User>
    var licenses: map<LicenseId, License>
    var requests: map<RequestId, KeyRequest>

    constructor (cfg: Config, users: map<UserId, User>)
      ensures this.cfg == cfg && Tables() == Db(users, map[], map[])
    {
      this.cfg, this.users, licenses, requests := cfg, users, map[], map[];
    }

    function Tables(): Db
      reads this
    {
      Db(users, licenses, requests)
    }

    /** One round of the loop: draw a key and insert its row into the transaction's private copy of the table. */
    method InsertKey(terms: Terms, draw: Draw, tx: map<LicenseId, License>)
      returns (inserted: Result<map<LicenseId, License>, AppError>, generated: GeneratedLicense)
      ensures inserted == InsertLicense(users, tx, NewLicense(cfg, terms, draw)) && generated == GeneratedAs(terms, draw)
    {
      var licenseKey := Crypto.KeyText(draw.bytes);
      var keyHash, keyPrefix := cfg.digest(Crypto.Normalize(licenseKey)), Crypto.Prefix(licenseKey);
      inserted := InsertLicense(users, tx, NewRow(draw.id, License(keyPrefix, keyHash, terms.owner, Some(terms.creator), Active,
                                                                   terms.maxDevices, terms.expiresAt, None, terms.origin)));
      generated := GeneratedLicense(draw.id, licenseKey, keyPrefix, terms.owner, Active, terms.maxDevices, terms.expiresAt);
    }

    /** The loop shared by approval and direct generation. */
    method InsertKeys(terms: Terms, draws: Draws, n: nat)
      returns (r: Result<map<LicenseId, License>, AppError>, generated: seq<GeneratedLicense>)
      ensures IssueBatch(cfg, Tables(), terms, draws, n)
           == if r.Err? then Err(r.error) else Ok(Effect(Tables().(licenses := r.value), Issued(generated)))
      ensures r.Err? ==> r.error == Conflict || r.error == Internal
      ensures r.Ok? ==>
          && NewOnesCarry(licenses, r.value, terms.owner, terms.creator, terms.maxDevices, terms.expiresAt)
          && |generated| == n && |r.value| == |licenses| + n
          && forall l :: l in licenses ==> l in r.value && r.value[l] == licenses[l]
    {
      var tx := licenses;
      generated := [];
      for i := 0 to n
        invariant InsertBatch(users, licenses, NewRows(cfg, terms, draws, i)) == Ok(tx)
        invariant generated == GeneratedBatch(terms, draws, i)
      {
        var inserted, license := InsertKey(terms, draws(i), tx);
        NextRow(cfg, users, licenses, terms, draws, i, tx);
        if inserted.Err? {
          FailingRow(cfg, users, licenses, terms, draws, n, i, tx, inserted);
          BatchErrors(users, licenses, NewRows(cfg, terms, draws, n));
          return inserted, [];
        }
        tx := inserted.value;
        generated := generated + [license];
      }
      BatchCarries(cfg, Tables(), terms, draws, n, tx);
      return Ok(tx), generated;
    }

    /** The transaction of direct generation. */
    method IssueKeys(terms: Terms, draws: Draws, number: nat) returns (r: Result<Reply, AppError>)
      requires number <= cfg.maxBatch && terms.origin == None
      modifies this`licenses
      ensures Carried(Commit(cfg, old(Tables()), GenerateKeys(terms, number, draws)), old(Tables()), Tables(), r)
      ensures r.Err? ==> r.error == Conflict || r.error == Internal
      ensures NewOnesCarry(old(licenses), licenses, terms.owner, terms.creator, terms.maxDevices, terms.expiresAt)
      ensures r.Ok? ==> r.value.Issued? && |r.value.keys| == number
      ensures |licenses| == |old(licenses)| + (if r.Ok? then number else 0)
      ensures forall l :: l in old(licenses) ==> l in licenses && licenses[l] == old(licenses)[l]
    {
      GenerateCommits(cfg, Tables(), terms, number, draws, IssueBatch(cfg, Tables(), terms, draws, number));
      var inserted, generated := InsertKeys(terms, draws, number);
      if inserted.Err? {
        return Err(inserted.error);
      }
      licenses := inserted.value;
      return Ok(Issued(generated));
    }

    /** The transaction of an approval, past its checks. */
    method IssueForRequest(actor: UserId, id: RequestId, now: Time, draws: Draws) returns (r: Result<Reply, AppError>)
      requires id in requests && requests[id].status == Pending && requests[id].quantity <= cfg.maxBatch
      modifies this`licenses, this`requests
      ensures Carried(Commit(cfg, old(Tables()), ApproveRequest(id, actor, now, draws)), old(Tables()), Tables(), r)
      ensures r.Err? ==> r.error == Conflict || r.error == Internal
    {
      var request := requests[id];
      var expiresAt := now + SECONDS_PER_DAY * request.ttlDays;
      var terms := Terms(Some(request.reseller), actor, request.maxDevices, Some(expiresAt), Some(id));
      ApprovalCommits(cfg, Tables(), id, request, actor, now, draws, IssueBatch(cfg, Tables(), terms, draws, request.quantity));
      var inserted, generated := InsertKeys(terms, draws, request.quantity);
      if inserted.Err? {
        return Err(inserted.error);
      }
      licenses := inserted.value;
      requests := requests[id := request.(status := Approved, reviewedBy := Some(actor))];
      return Ok(Issued(generated));
    }

    /** `approve_key_request`: all the keys and the approval, or nothing. */
    method ApproveKeyRequest(actor: UserId, id: RequestId, now: Time, draws: Draws) returns (r: Result<Reply, AppError>)
      modifies this`licenses, this`requests
      ensures Carried(Handle(cfg, old(Tables()), Approve(actor, id, now, draws)), old(Tables()), Tables(), r)
      ensures Admission(users, actor, Admin, r)
      ensures IsActiveAdmin(old(Tables()), actor) ==> (r == Err(NotFound) <==> id !in old(requests))
      ensures IsActiveAdmin(old(Tables()), actor) && id in old(requests) ==>
          && (old(requests)[id].status != Pending ==> r == Err(Conflict))
          && (r == Err(BadRequest) <==> old(requests)[id].status == Pending && old(requests)[id].quantity > cfg.maxBatch)
      ensures r.Err? ==> r.error in {Unauthorized, Forbidden, NotFound, Conflict, BadRequest, Internal}
      ensures r.Ok? ==> id in old(requests) && old(requests)[id].status == Pending && old(requests)[id].quantity <= cfg.maxBatch
      ensures r.Ok? ==> ApprovedInto(old(Tables()), Tables(), r.value, id, actor, now)
      ensures r.Err? ==> licenses == old(licenses) && requests == old(requests)
    {
      var refused := RequireRole(users, actor, Admin);
      if refused.Some? {
        return Err(refused.value);
      }
      if id !in requests {
        return Err(NotFound);
      }
      var request := requests[id];
      if request.status != Pending {
        return Err(Conflict);
      }
      if request.quantity > cfg.maxBatch {
        return Err(BadRequest);
      }
      ghost var db := Tables();
      r := IssueForRequest(actor, id, now, draws);
      if r.Ok? {
        ApprovalAdds(cfg, db, id, actor, now, draws, Commit(cfg, db, ApproveRequest(id, actor, now, draws)).value);
      }
    }

    /** `reject_key_request`. */
    method RejectKeyRequest(actor: UserId, id: RequestId) returns (r: Result<Reply, AppError>)
      modifies this`requests
      ensures Carried(Handle(cfg, old(Tables()), Reject(actor, id)), old(Tables()), Tables(), r)
      ensures r.Ok? <==> IsActiveAdmin(old(Tables()), actor) && id in old(requests) && old(requests)[id].status == Pending
      ensures Admission(users, actor, Admin, r)
      ensures IsActiveAdmin(old(Tables()), actor) && r.Err? ==> r.error == if id in old(requests) then Conflict else NotFound
      ensures r.Ok? ==> requests[id] == old(requests)[id].(status := Rejected, reviewedBy := Some(actor))
      ensures requests.Keys == old(requests).Keys && forall q :: q in requests && q != id ==> requests[q] == old(requests)[q]
    {
      var refused := RequireRole(users, actor, Admin);
      if refused.Some? {
        return Err(refused.value);
      }
      if id !in requests {
        return Err(NotFound);
      }
      if requests[id].status != Pending {
        return Err(Conflict);
      }
      requests := requests[id := requests[id].(status := Rejected, reviewedBy := Some(actor))];
      return Ok(Done);
    }

    /** `create_licenses_for_owner`: all the keys, or nothing. */
    method CreateLicensesForOwner(actor: UserId, owner: Option<UserId>, quantity: Option<int>, maxDevices: int,
                                  expiresAt: Option<Time>, ttlDays: Option<int>, now: Time, draws: Draws)
      returns (r: Result<Reply, AppError>)
      requires ValidGeneration(quantity, maxDevices, ttlDays)
      modifies this`licenses
      ensures Carried(Outcome(cfg, old(Tables()), CheckGeneration(cfg, users, actor, owner, quantity, maxDevices,
                                                                  expiresAt, ttlDays, now, draws)),
                      old(Tables()), Tables(), r)
      ensures r == Err(BadRequest) <==> GenerationFails(cfg, users, owner, quantity, expiresAt, ttlDays)
      ensures r.Err? ==> r.error in {BadRequest, Conflict, Internal}
      ensures r.Ok? ==> r.value.Issued? && |r.value.keys| == if quantity.Some? then quantity.value else 1
      ensures NewOnesCarry(old(licenses), licenses, owner, actor, maxDevices,
                           if ttlDays.Some? then Some(now + ttlDays.value * 24 * 60 * 60) else expiresAt)
      ensures |licenses| == |old(licenses)| + (if r.Ok? then |r.value.keys| else 0)
      ensures forall l :: l in old(licenses) ==> l in licenses && licenses[l] == old(licenses)[l]
    {
      FailedChecks(cfg, Tables(), actor, owner, quantity, maxDevices, expiresAt, ttlDays, now, draws);
      var number := if quantity.Some? then quantity.value else 1;
      if number > cfg.maxBatch {
        return Err(BadRequest);
      }
      if expiresAt.Some? && ttlDays.Some? {
        return Err(BadRequest);
      }
      if owner.Some? && !(owner.value in users && users[owner.value].isActive) {
        return Err(BadRequest);
      }
      var expiry := if ttlDays.Some? then Some(now + SECONDS_PER_DAY * ttlDays.value) else expiresAt;
      var terms := Terms(owner, actor, maxDevices, expiry, None);
      PassedChecks(cfg, Tables(), actor, owner, quantity, maxDevices, expiresAt, ttlDays, now, draws, terms, number);
      r := IssueKeys(terms, draws, number);
    }

    /** `generate_licenses`. */
    method GenerateLicenses(actor: UserId, owner: Option<UserId>, quantity: Option<int>, maxDevices: int,
                            expiresAt: Option<Time>, ttlDays: Option<int>, now: Time, draws: Draws)
      returns (r: Result<Reply, AppError>)
      modifies this`licenses
      ensures Carried(Handle(cfg, old(Tables()), Generate(actor, owner, quantity, maxDevices, expiresAt, ttlDays, now, draws)),
                      old(Tables()), Tables(), r)
      ensures r.Ok? ==> IsActiveAdmin(old(Tables()), actor) && (owner.Some? ==> IsActiveUser(users, owner.value))
      ensures r == Err(Validation) <==>
          || (quantity.Some? && quantity.value < 1) || maxDevices < 1 || maxDevices > 100000
          || (ttlDays.Some? && (ttlDays.value < 1 || ttlDays.value > 36500))
      ensures r != Err(Validation) ==> Admission(users, actor, Admin, r)
      ensures r != Err(Validation) && IsActiveAdmin(old(Tables()), actor) ==>
          (r == Err(BadRequest) <==> GenerationFails(cfg, users, owner, quantity, expiresAt, ttlDays))
      ensures r.Ok? ==> r.value.Issued? && |r.value.keys| == (if quantity.Some? then quantity.value else 1) <= cfg.maxBatch
      ensures NewOnesCarry(old(licenses), licenses, owner, actor, maxDevices,
                           if ttlDays.Some? then Some(now + ttlDays.value * 24 * 60 * 60) else expiresAt)
      ensures |licenses| == |old(licenses)| + (if r.Ok? then |r.value.keys| else 0)
      ensures forall l :: l in old(licenses) ==> l in licenses && licenses[l] == old(licenses)[l]
    {
      if !ValidGeneration(quantity, maxDevices, ttlDays) {
        return Err(Validation);
      }
      var refused := RequireRole(users, actor, Admin);
      if refused.Some? {
        return Err(refused.value);
      }
      r := CreateLicensesForOwner(actor, owner, quantity, maxDevices, expiresAt, ttlDays, now, draws);
    }

    /** `set_user_license_status`: one UPDATE whose filter depends on the new status. */
    method SetUserLicenseStatus(actor: UserId, id: UserId, status: LicenseStatus) returns (r: Result<Reply, AppError>)
      modifies this`licenses
      ensures Carried(Handle(cfg, old(Tables()), SetUserLicenses(actor, id, status)), old(Tables()), Tables(), r)
      ensures r.Ok? <==> IsActiveAdmin(old(Tables()), actor) && id in users
      ensures Admission(users, actor, Admin, r) && (IsActiveAdmin(old(Tables()), actor) && r.Err? ==> r.error == NotFound)
      ensures licenses.Keys == old(licenses).Keys
      ensures forall l :: l in licenses ==> licenses[l] == old(licenses)[l].(status := licenses[l].status)
      ensures StatusesSet(old(licenses), licenses, id, status, r.Ok?)
      ensures r.Ok? ==> r.value == Updated(|set l | l in licenses && licenses[l].status != old(licenses)[l].status|)
    {
      var refused := RequireRole(users, actor, Admin);
      if refused.Some? {
        return Err(refused.value);
      }
      if id !in users {
        return Err(NotFound);
      }
      var updatedCount := UpdateStatuses(id, status);
      return Ok(Updated(updatedCount));
    }

    method UpdateStatuses(owner: UserId, status: LicenseStatus) returns (updatedCount: nat)
      modifies this`licenses
      ensures licenses == BulkUpdated(old(licenses), owner, status)
      ensures updatedCount == |BulkTargets(old(licenses), owner, status)|
      ensures updatedCount == |set l | l in licenses && licenses[l].status != old(licenses)[l].status|
    {
      var affected := set l | l in licenses && licenses[l].owner == Some(owner) && BulkApplies(status, licenses[l].status);
      updatedCount := |affected|;
      assert affected == BulkTargets(licenses, owner, status);
      licenses := map l | l in licenses :: if l in affected then licenses[l].(status := status) else licenses[l];
      assert affected == set l | l in licenses && licenses[l].status != old(licenses)[l].status;
    }

    /** DELETE FROM users with the schema's ON DELETE actions. */
    method DeleteUserRow(id: UserId)
      modifies this`users, this`licenses, this`requests
      ensures Tables() == DeleteRow(old(Tables()), id)
    {
      users := users - {id};
      licenses := map l | l in licenses ::
        licenses[l].(owner := Unlink(licenses[l].owner, id), createdBy := Unlink(licenses[l].createdBy, id));
      requests := map q | q in requests && requests[q].reseller != id ::
        requests[q].(reviewedBy := Unlink(requests[q].reviewedBy, id));
    }

    /** `delete_user`: suspend, then delete with the schema's ON DELETE actions. */
    method DeleteUserAccount(actor: UserId, id: UserId) returns (r: Result<Reply, AppError>)
      modifies this`users, this`licenses, this`requests
      ensures Carried(Handle(cfg, old(Tables()), RemoveUser(actor, id)), old(Tables()), Tables(), r)
      ensures r.Ok? <==> IsActiveAdmin(old(Tables()), actor) && actor != id && id in old(users)
      ensures Admission(old(users), actor, Admin, r)
      ensures IsActiveAdmin(old(Tables()), actor) && r.Err? ==> r.error == if actor == id then BadRequest else NotFound
      ensures r.Ok? ==> !Ledger.Mentions(Tables(), id) && users == old(users) - {id}
      ensures r.Ok? ==> r.value == Updated(|set l | l in licenses && licenses[l].status != old(licenses)[l].status|)
    {
      var refused := RequireRole(users, actor, Admin);
      if refused.Some? {
        return Err(refused.value);
      }
      if actor == id {
        return Err(BadRequest);
      }
      if id !in users {
        return Err(NotFound);
      }
      ghost var db := Tables();
      var suspendedKeyCount := UpdateStatuses(id, Suspended);
      DeleteUserRow(id);
      Ledger.DeletionIsClean(cfg, db, id);
      SuspendedOnly(cfg, db, id, Tables());
      return Ok(Updated(suspendedKeyCount));
    }

    /** The UPDATE behind `set_license_status` and `set_my_license_status`. */
    method UpdateOne(l: LicenseId, ownedBy: Option<UserId>, status: LicenseStatus) returns (r: Result<Reply, AppError>)
      modifies this`licenses
      ensures Carried(Commit(cfg, old(Tables()), LicenseUpdate(l, ownedBy, status)), old(Tables()), Tables(), r)
    {
      if l !in licenses || (ownedBy.Some? && licenses[l].owner != ownedBy) {
        return Err(NotFound);
      }
      licenses := licenses[l := licenses[l].(status := status)];
      return Ok(Done);
    }

    method SetLicenseStatus(actor: UserId, l: LicenseId, status: LicenseStatus) returns (r: Result<Reply, AppError>)
      modifies this`licenses
      ensures Carried(Handle(cfg, old(Tables()), SetLicense(actor, l, status)), old(Tables()), Tables(), r)
      ensures r.Ok? <==> IsActiveAdmin(old(Tables()), actor) && l in old(licenses)
      ensures Admission(users, actor, Admin, r) && (IsActiveAdmin(old(Tables()), actor) && r.Err? ==> r.error == NotFound)
      ensures r.Ok? ==> licenses[l] == old(licenses)[l].(status := status)
      ensures licenses.Keys == old(licenses).Keys && forall k :: k in licenses && k != l ==> licenses[k] == old(licenses)[k]
    {
      var refused := RequireRole(users, actor, Admin);
      if refused.Some? {
        return Err(refused.value);
      }
      r := UpdateOne(l, None, status);
    }

    method SetMyLicenseStatus(actor: UserId, l: LicenseId, status: LicenseStatus) returns (r: Result<Reply, AppError>)
      modifies this`licenses
      ensures Carried(Handle(cfg, old(Tables()), SetMyLicense(actor, l, status)), old(Tables()), Tables(), r)
      ensures r.Ok? <==> IsActiveReseller(old(Tables()), actor) && l in old(licenses) && old(licenses)[l].owner == Some(actor)
      ensures Admission(users, actor, Reseller, r) && (IsActiveReseller(old(Tables()), actor) && r.Err? ==> r.error == NotFound)
      ensures r.Ok? ==> licenses[l] == old(licenses)[l].(status := status)
      ensures licenses.Keys == old(licenses).Keys
      ensures forall k :: k in licenses && (k != l || licenses[k].owner != Some(actor)) ==> licenses[k] == old(licenses)[k]
    {
      var refused := RequireRole(users, actor, Reseller);
      if refused.Some? {
        return Err(refused.value);
      }
      r := UpdateOne(l, Some(actor), status);
    }

    /** `create_key_request`. */
    method CreateKeyRequest(actor: UserId, id: RequestId, quantity: int, maxDevices: int, ttlDays: int)
      returns (r: Result<Reply, AppError>)
      modifies this`requests
      ensures Carried(Handle(cfg, old(Tables()), RequestKeys(actor, id, quantity, maxDevices, ttlDays)),
                      old(Tables()), Tables(), r)
      ensures r.Ok? <==> r != Err(Validation) && IsActiveReseller(old(Tables()), actor)
                         && quantity <= cfg.maxBatch && id !in old(requests)
      ensures r == Err(Validation) <==>
          quantity < 1 || quantity > 1000 || maxDevices < 1 || maxDevices > 100000 || ttlDays < 1 || ttlDays > 36500
      ensures r != Err(Validation) ==> Admission(users, actor, Reseller, r)
      ensures r != Err(Validation) && IsActiveReseller(old(Tables()), actor) && r.Err? ==>
          r.error == if quantity > cfg.maxBatch then BadRequest else Conflict
      ensures r.Ok? ==> id in requests && requests[id].reseller == actor && requests[id].quantity == quantity
      ensures r.Ok? ==> requests[id].maxDevices == maxDevices && requests[id].ttlDays == ttlDays
      ensures r.Ok? ==> requests[id].status == Pending && requests[id].reviewedBy == None
      ensures requests.Keys == old(requests).Keys + (if r.Ok? then {id} else {})
      ensures forall q :: q in old(requests) ==> requests[q] == old(requests)[q]
    {
      if !ValidRequest(quantity, maxDevices, ttlDays) {
        return Err(Validation);
      }
      var refused := RequireRole(users, actor, Reseller);
      if refused.Some? {
        return Err(refused.value);
      }
      if quantity > cfg.maxBatch {
        return Err(BadRequest);
      }
      if id in requests {
        return Err(Conflict);
      }
      requests := requests[id := KeyRequest(actor, quantity, maxDevices, ttlDays, Pending, None)];
      return Ok(Done);
    }

    /** `create_user`. */
    method CreateAccount(actor: UserId, id: UserId, email: string, role: Option<Role>, isActive: Option<bool>)
      returns (r: Result<Reply, AppError>)
      modifies this`users
      ensures Carried(Handle(cfg, old(Tables()), CreateUser(actor, id, email, role, isActive)), old(Tables()), Tables(), r)
      ensures r.Ok? <==> IsActiveAdmin(old(Tables()), actor) && id !in old(users)
                         && forall u :: u in old(users) ==> old(users)[u].email != email
      ensures Admission(old(users), actor, Admin, r) && (IsActiveAdmin(old(Tables()), actor) && r.Err? ==> r.error == Conflict)
      ensures r.Ok? ==> id in users && users[id].email == email
      ensures r.Ok? ==> users[id].role == (if role.Some? then role.value else Reseller)
      ensures r.Ok? ==> users[id].isActive == (isActive.Some? ==> isActive.value)
      ensures users.Keys == old(users).Keys + (if r.Ok? then {id} else {})
      ensures forall u :: u in old(users) ==> users[u] == old(users)[u]
      ensures Ledger.UniqueEmails(old(users)) ==> Ledger.UniqueEmails(users)
    {
      var refused := RequireRole(users, actor, Admin);
      if refused.Some? {
        return Err(refused.value);
      }
      if id in users || exists u :: u in users && users[u].email == email {
        return Err(Conflict);
      }
      users := users[id := User(email, DefaultTo(role, Reseller), DefaultTo(isActive, true))];
      return Ok(Done);
    }

    /** `set_user_status`. */
    method SetAccountStatus(actor: UserId, id: UserId, isActive: bool) returns (r: Result<Reply, AppError>)
      modifies this`users
      ensures Carried(Handle(cfg, old(Tables()), SetUserStatus(actor, id, isActive)), old(Tables()), Tables(), r)
      ensures r.Ok? <==> IsActiveAdmin(old(Tables()), actor) && id in old(users) && (actor == id ==> isActive)
      ensures Admission(old(users), actor, Admin, r)
      ensures IsActiveAdmin(old(Tables()), actor) && r.Err? ==> r.error == if actor == id then BadRequest else NotFound
      ensures r.Ok? ==> IsActiveAdmin(Tables(), actor) && users[id].isActive == isActive
      ensures users.Keys == old(users).Keys
      ensures forall u :: u in users ==> users[u].email == old(users)[u].email && users[u].role == old(users)[u].role
      ensures forall u :: u in users && (r.Err? || u != id) ==> users[u] == old(users)[u]
    {
      var refused := RequireRole(users, actor, Admin);
      if refused.Some? {
        return Err(refused.value);
      }
      if actor == id && !isActive {
        return Err(BadRequest);
      }
      if id !in users {
        return Err(NotFound);
      }
      users := users[id := users[id].(isActive := isActive)];
      return Ok(Done);
    }
  }
}
