/**
 What holds over any history of committed transactions on users, licences and key requests.
 IssuanceProtocol shows that interleaved approvals, rejections and generations leave such a history.
 */
module Ledger {
  import opened Models
  import opened Database
  import Leases
  import SeatHistory
  import Crypto

  // ----- one transaction

  ghost predicate LicensesLinked(users: map<UserId, User>, licenses: map<LicenseId, License>) {
    forall l :: l in licenses ==> UserExists(users, licenses[l].owner) && UserExists(users, licenses[l].createdBy)
  }

  ghost predicate RequestsLinked(users: map<UserId, User>, requests: map<RequestId, KeyRequest>) {
    forall r :: r in requests ==> requests[r].reseller in users && UserExists(users, requests[r].reviewedBy)
  }

  ghost predicate UniqueEmails(users: map<UserId, User>) {
    forall u, v :: u in users && v in users && users[u].email == users[v].email ==> u == v
  }

  /** The uniqueness and foreign-key rules of the schema. */
  ghost predicate Sound(db: Db) {
    && UniqueHashes(db.licenses) && UniqueEmails(db.users)
    && LicensesLinked(db.users, db.licenses) && RequestsLinked(db.users, db.requests)
  }

  lemma BatchKeepsLinks(users: map<UserId, User>, licenses: map<LicenseId, License>, rows: seq<NewRow>)
    requires LicensesLinked(users, licenses) && InsertBatch(users, licenses, rows).Ok?
    ensures LicensesLinked(users, InsertBatch(users, licenses, rows).value)
  {
    if rows == [] {
    } else {
      BatchKeepsLinks(users, licenses, rows[..|rows| - 1]);
    }
  }

  lemma BatchKeepsSound(db: Db, rows: seq<NewRow>)
    requires Sound(db) && InsertBatch(db.users, db.licenses, rows).Ok?
    ensures Sound(db.(licenses := InsertBatch(db.users, db.licenses, rows).value))
  {
    BatchKeepsHashesUnique(db.users, db.licenses, rows);
    BatchKeepsLinks(db.users, db.licenses, rows);
  }

  lemma {:induction false} RowIdsAreRows(rows: seq<NewRow>)
    ensures forall x :: x in RowIds(rows) ==> exists i :: 0 <= i < |rows| && rows[i].id == x
  {
    if rows == [] {
    } else {
      var before := rows[..|rows| - 1];
      RowIdsAreRows(before);
      forall x | x in RowIds(rows) ensures exists i :: 0 <= i < |rows| && rows[i].id == x {
        if x in RowIds(before) {
          var i :| 0 <= i < |before| && before[i].id == x;
          assert rows[i].id == x;
        }
      }
    }
  }

  lemma DeleteKeepsRules(db: Db, id: UserId, after: Db)
    requires UniqueHashes(db.licenses) && UniqueEmails(db.users)
    requires after == DeleteRow(db.(licenses := BulkUpdated(db.licenses, id, Suspended)), id)
    ensures UniqueHashes(after.licenses) && UniqueEmails(after.users)
  {
    assert forall l :: l in after.licenses ==> l in db.licenses && after.licenses[l].keyHash == db.licenses[l].keyHash;
    assert forall u :: u in after.users ==> u in db.users && after.users[u].email == db.users[u].email;
  }

  lemma DeleteKeepsLinks(db: Db, id: UserId, after: Db)
    requires LicensesLinked(db.users, db.licenses) && RequestsLinked(db.users, db.requests)
    requires after == DeleteRow(db.(licenses := BulkUpdated(db.licenses, id, Suspended)), id)
    ensures LicensesLinked(after.users, after.licenses) && RequestsLinked(after.users, after.requests)
  {
  }

  lemma DeleteKeepsSound(db: Db, id: UserId, after: Db)
    requires Sound(db) && after == DeleteRow(db.(licenses := BulkUpdated(db.licenses, id, Suspended)), id)
    ensures Sound(after)
  {
    DeleteKeepsRules(db, id, after);
    DeleteKeepsLinks(db, id, after);
  }

  lemma ApprovalKeepsSound(cfg: Config, db: Db, txn: Txn)
    requires Sound(db) && txn.ApproveRequest? && Commit(cfg, db, txn).Ok?
    ensures Sound(Commit(cfg, db, txn).value.db)
  {
    var request := db.requests[txn.request];
    var terms := TermsOf(txn.request, request, txn.admin, txn.now);
    var rows := NewRows(cfg, terms, txn.draws, request.quantity);
    BatchKeepsSound(db, rows);
    BatchUsersExist(db.users, db.licenses, rows);
    RowsAndKeysAt(cfg, terms, txn.draws, request.quantity, 0);
    assert UserExists(db.users, rows[0].license.createdBy);
  }

  /** Referential integrity and uniqueness are kept by every transaction. */
  lemma CommitKeepsSound(cfg: Config, db: Db, txn: Txn)
    requires Sound(db) && Commit(cfg, db, txn).Ok?
    ensures Sound(Commit(cfg, db, txn).value.db)
  {
    match txn
    case DeleteUser(id) => DeleteKeepsSound(db, id, Commit(cfg, db, txn).value.db);
    case ApproveRequest(_, _, _, _) => ApprovalKeepsSound(cfg, db, txn);
    case GenerateKeys(terms, number, draws) =>
      BatchKeepsSound(db, NewRows(cfg, Direct(terms), draws, number));
    case _ =>
  }

  lemma SameTermsEvolve(before: map<LicenseId, License>, after: map<LicenseId, License>)
    requires UniqueHashes(before) && after.Keys == before.Keys
    requires forall l :: l in before ==>
        Leases.SameTerms(before[l], after[l]) && after[l].lastVerifiedAt == before[l].lastVerifiedAt
    ensures Leases.Evolves(before, after)
  {
  }

  lemma DeletionEvolves(db: Db, id: UserId, after: Db)
    requires UniqueHashes(db.licenses) && after == DeleteRow(db.(licenses := BulkUpdated(db.licenses, id, Suspended)), id)
    ensures Leases.Evolves(db.licenses, after.licenses)
  {
    SameTermsEvolve(db.licenses, after.licenses);
  }

  /** To the seat protocol every transaction here is one administrative change of the licence table. */
  lemma CommitEvolvesLicenses(cfg: Config, db: Db, txn: Txn)
    requires Sound(db) && Commit(cfg, db, txn).Ok?
    ensures Leases.Evolves(db.licenses, Commit(cfg, db, txn).value.db.licenses)
  {
    match txn
    case ApproveRequest(r, admin, now, draws) =>
      BatchEvolves(db, NewRows(cfg, TermsOf(r, db.requests[r], admin, now), draws, db.requests[r].quantity));
    case GenerateKeys(terms, number, draws) =>
      BatchEvolves(db, NewRows(cfg, Direct(terms), draws, number));
    case DeleteUser(id) => DeletionEvolves(db, id, Commit(cfg, db, txn).value.db);
    case BulkStatus(owner, status) => SameTermsEvolve(db.licenses, BulkUpdated(db.licenses, owner, status));
    case LicenseUpdate(l, _, status) => SameTermsEvolve(db.licenses, Commit(cfg, db, txn).value.db.licenses);
    case _ =>
  }

  /** The single-key change of the seat protocol is the transaction of the back office: same success, same table. */
  lemma SingleKeyChangesAgree(cfg: Config, db: Db, l: LicenseId, owner: Option<UserId>, status: LicenseStatus)
    ensures var outcome := Commit(cfg, db, LicenseUpdate(l, owner, status));
            && (outcome.Ok? <==> SeatHistory.MaySet(db.licenses, l, owner))
            && (outcome.Ok? ==> outcome.value.db.licenses == SeatHistory.WithStatus(db.licenses, l, status))
  {
  }

  lemma BatchEvolves(db: Db, rows: seq<NewRow>)
    requires Sound(db) && InsertBatch(db.users, db.licenses, rows).Ok?
    ensures Leases.Evolves(db.licenses, InsertBatch(db.users, db.licenses, rows).value)
  {
    BatchAdds(db.users, db.licenses, rows);
    BatchKeepsHashesUnique(db.users, db.licenses, rows);
  }

  // ----- histories

  /** Every transaction of the history commits, one after the other. */
  ghost predicate Committed(cfg: Config, db: Db, h: seq<Txn>) {
    h == [] || (Committed(cfg, db, h[..|h| - 1]) && Commit(cfg, DbAfter(cfg, db, h[..|h| - 1]), h[|h| - 1]).Ok?)
  }

  ghost function DbAfter(cfg: Config, db: Db, h: seq<Txn>): Db {
    if h == [] then db
    else
      var before := DbAfter(cfg, db, h[..|h| - 1]);
      var result := Commit(cfg, before, h[|h| - 1]);
      if result.Ok? then result.value.db else before
  }

  /** The reply to the i-th transaction. */
  ghost function ReplyAt(cfg: Config, db: Db, h: seq<Txn>, i: nat): Reply
    requires i < |h|
  {
    var result := Commit(cfg, DbAfter(cfg, db, h[..i]), h[i]);
    if result.Ok? then result.value.reply else Done
  }

  lemma CommittedPrefix(cfg: Config, db: Db, h: seq<Txn>, n: nat)
    requires Committed(cfg, db, h) && n <= |h|
    ensures Committed(cfg, db, h[..n])
  {
    if n == |h| {
      assert h[..n] == h;
    } else {
      CommittedPrefix(cfg, db, h[..|h| - 1], n);
      assert h[..|h| - 1][..n] == h[..n];
    }
  }

  lemma {:induction false} HistoryKeepsSound(cfg: Config, db: Db, h: seq<Txn>)
    requires Sound(db) && Committed(cfg, db, h)
    ensures Sound(DbAfter(cfg, db, h))
  {
    if h == [] {
    } else {
      HistoryKeepsSound(cfg, db, h[..|h| - 1]);
      CommitKeepsSound(cfg, DbAfter(cfg, db, h[..|h| - 1]), h[|h| - 1]);
    }
  }

  // ----- the ledger of licences

  function KeysIn(reply: Reply): nat {
    if reply.Issued? then |reply.keys| else 0
  }

  lemma BatchCount(db: Db, rows: seq<NewRow>)
    requires InsertBatch(db.users, db.licenses, rows).Ok?
    ensures var after := InsertBatch(db.users, db.licenses, rows).value;
            |after| == |db.licenses| + |rows| && db.licenses.Keys <= after.Keys
  {
    var after := InsertBatch(db.users, db.licenses, rows).value;
    BatchAdds(db.users, db.licenses, rows);
    assert |after.Keys| == |db.licenses.Keys| + |RowIds(rows)|;
  }

  lemma SameKeysSameSize<K, V>(a: map<K, V>, b: map<K, V>)
    requires a.Keys == b.Keys
    ensures |a| == |b|
  {
    assert |a.Keys| == |b.Keys|;
  }

  /** A transaction adds exactly the licences it returns, never more than a batch, and never removes one. */
  lemma CommitAddsKeys(cfg: Config, db: Db, txn: Txn)
    requires Commit(cfg, db, txn).Ok?
    ensures var effect := Commit(cfg, db, txn).value;
            && |effect.db.licenses| == |db.licenses| + KeysIn(effect.reply)
            && db.licenses.Keys <= effect.db.licenses.Keys
            && KeysIn(effect.reply) <= cfg.maxBatch
  {
    match txn
    case ApproveRequest(r, admin, now, draws) =>
      BatchCount(db, NewRows(cfg, TermsOf(r, db.requests[r], admin, now), draws, db.requests[r].quantity));
    case GenerateKeys(terms, number, draws) =>
      BatchCount(db, NewRows(cfg, Direct(terms), draws, number));
    case _ =>
      var after := Commit(cfg, db, txn).value.db.licenses;
      assert after.Keys == db.licenses.Keys;
      SameKeysSameSize(db.licenses, after);
  }

  ghost function KeysIssued(cfg: Config, db: Db, h: seq<Txn>): nat {
    if h == [] then 0
    else KeysIssued(cfg, db, h[..|h| - 1]) + KeysIn(ReplyAt(cfg, db, h, |h| - 1))
  }

  /** Conservation: the licences at any time are the initial ones plus all keys returned by approvals and generations;
      deleting users never removes one. */
  lemma {:induction false} LedgerBalances(cfg: Config, db: Db, h: seq<Txn>)
    requires Committed(cfg, db, h)
    ensures |DbAfter(cfg, db, h).licenses| == |db.licenses| + KeysIssued(cfg, db, h)
    ensures db.licenses.Keys <= DbAfter(cfg, db, h).licenses.Keys
  {
    if h == [] {
    } else {
      LedgerBalances(cfg, db, h[..|h| - 1]);
      CommitAddsKeys(cfg, DbAfter(cfg, db, h[..|h| - 1]), h[|h| - 1]);
    }
  }

  // ----- issuance is exactly once

  predicate IsApproval(txn: Txn, r: RequestId) {
    txn.ApproveRequest? && txn.request == r
  }

  predicate IsReview(txn: Txn, r: RequestId) {
    IsApproval(txn, r) || (txn.RejectRequest? && txn.request == r)
  }

  predicate Creates(txn: Txn, r: RequestId) {
    txn.InsertRequest? && txn.request == r
  }

  function CountReviews(h: seq<Txn>, r: RequestId): nat {
    if h == [] then 0 else CountReviews(h[..|h| - 1], r) + (if IsReview(h[|h| - 1], r) then 1 else 0)
  }

  function CountApprovals(h: seq<Txn>, r: RequestId): nat {
    if h == [] then 0 else CountApprovals(h[..|h| - 1], r) + (if IsApproval(h[|h| - 1], r) then 1 else 0)
  }

  /** The licences that approvals of the request have inserted. */
  function IssuedFor(licenses: map<LicenseId, License>, r: RequestId): set<LicenseId> {
    set l | l in licenses && licenses[l].origin == Some(r)
  }

  lemma OriginsKept(cfg: Config, db: Db, txn: Txn, r: RequestId)
    requires Commit(cfg, db, txn).Ok? && !IsApproval(txn, r)
    ensures IssuedFor(Commit(cfg, db, txn).value.db.licenses, r) == IssuedFor(db.licenses, r)
  {
    var after := Commit(cfg, db, txn).value.db.licenses;
    match txn
    case ApproveRequest(q, admin, now, draws) =>
      OtherOrigins(cfg, db, TermsOf(q, db.requests[q], admin, now), draws, db.requests[q].quantity, r);
    case GenerateKeys(terms, number, draws) =>
      OtherOrigins(cfg, db, Direct(terms), draws, number, r);
    case _ =>
  }

  lemma OtherOrigins(cfg: Config, db: Db, terms: Terms, draws: Draws, n: nat, r: RequestId)
    requires InsertBatch(db.users, db.licenses, NewRows(cfg, terms, draws, n)).Ok? && terms.origin != Some(r)
    ensures IssuedFor(InsertBatch(db.users, db.licenses, NewRows(cfg, terms, draws, n)).value, r) == IssuedFor(db.licenses, r)
  {
    var after := InsertBatch(db.users, db.licenses, NewRows(cfg, terms, draws, n)).value;
    BatchAdds(db.users, db.licenses, NewRows(cfg, terms, draws, n));
    forall l | l in after && l !in db.licenses ensures after[l].origin != Some(r) {
      NewLicensesCarryTerms(cfg, db, terms, draws, n, l);
    }
  }

  lemma {:induction false} RowsHaveOrigin(cfg: Config, terms: Terms, draws: Draws, n: nat)
    ensures forall i :: 0 <= i < n ==> NewRows(cfg, terms, draws, n)[i].license.origin == terms.origin
  {
    if n == 0 {
    } else {
      RowsHaveOrigin(cfg, terms, draws, n - 1);
    }
  }

  lemma RowsOfOneOrigin(db: Db, rows: seq<NewRow>, r: RequestId)
    requires InsertBatch(db.users, db.licenses, rows).Ok? && IssuedFor(db.licenses, r) == {}
    requires forall i :: 0 <= i < |rows| ==> rows[i].license.origin == Some(r)
    ensures IssuedFor(InsertBatch(db.users, db.licenses, rows).value, r) == RowIds(rows)
  {
    var after := InsertBatch(db.users, db.licenses, rows).value;
    BatchAdds(db.users, db.licenses, rows);
    RowIdsAreRows(rows);
    forall l | l in RowIds(rows) ensures after[l].origin == Some(r) {
      var i :| 0 <= i < |rows| && rows[i].id == l;
    }
    forall l | l in db.licenses ensures after[l].origin != Some(r) {
      assert l !in IssuedFor(db.licenses, r);
    }
  }

  lemma ApprovalIssues(cfg: Config, db: Db, txn: Txn, r: RequestId)
    requires Commit(cfg, db, txn).Ok? && IsApproval(txn, r) && IssuedFor(db.licenses, r) == {}
    ensures |IssuedFor(Commit(cfg, db, txn).value.db.licenses, r)| == db.requests[r].quantity
  {
    var terms := TermsOf(r, db.requests[r], txn.admin, txn.now);
    var rows := NewRows(cfg, terms, txn.draws, db.requests[r].quantity);
    RowsHaveOrigin(cfg, terms, txn.draws, db.requests[r].quantity);
    RowsOfOneOrigin(db, rows, r);
    BatchAdds(db.users, db.licenses, rows);
  }

  /** How far the request has come, as the tables show it. */
  ghost predicate Reflects(db: Db, r: RequestId, quantity: nat, reviews: nat, approvals: nat) {
    && approvals <= reviews <= 1
    && |IssuedFor(db.licenses, r)| == (if approvals == 1 then quantity else 0)
    && (r in db.requests ==>
          && db.requests[r].quantity == quantity
          && db.requests[r].status == (if reviews == 0 then Pending else if approvals == 1 then Approved else Rejected))
  }

  lemma CommitReflects(cfg: Config, db: Db, txn: Txn, r: RequestId, quantity: nat, reviews: nat, approvals: nat)
    requires Commit(cfg, db, txn).Ok? && Reflects(db, r, quantity, reviews, approvals)
    requires !Creates(txn, r)
    ensures Reflects(Commit(cfg, db, txn).value.db, r, quantity, reviews + (if IsReview(txn, r) then 1 else 0),
                     approvals + (if IsApproval(txn, r) then 1 else 0))
  {
    if IsApproval(txn, r) {
      assert IssuedFor(db.licenses, r) == {};
      ApprovalIssues(cfg, db, txn, r);
    } else {
      OriginsKept(cfg, db, txn, r);
    }
  }

  lemma CreationReflects(cfg: Config, db: Db, creation: Txn, r: RequestId)
    requires Creates(creation, r) && Commit(cfg, db, creation).Ok? && IssuedFor(db.licenses, r) == {}
    ensures Reflects(Commit(cfg, db, creation).value.db, r, creation.quantity, 0, 0)
  {
  }

  /** Request ids are fresh UUIDs: none is created twice, nor one that is there already. */
  ghost predicate CreatedOnce(db: Db, h: seq<Txn>, r: RequestId) {
    && (r in db.requests ==> forall i :: 0 <= i < |h| ==> !Creates(h[i], r))
    && (forall i, j :: 0 <= i < j < |h| ==> !(Creates(h[i], r) && Creates(h[j], r)))
  }

  /** The quantity the request asks for, once there is such a request. */
  function Requested(db: Db, h: seq<Txn>, r: RequestId): Option<Positive> {
    if h == [] then (if r in db.requests then Some(db.requests[r].quantity) else None)
    else if Creates(h[|h| - 1], r) then Some(h[|h| - 1].quantity)
    else Requested(db, h[..|h| - 1], r)
  }

  lemma {:induction false} NotYetRequested(db: Db, h: seq<Txn>, r: RequestId)
    requires r !in db.requests && forall i :: 0 <= i < |h| ==> !Creates(h[i], r)
    ensures Requested(db, h, r).None?
  {
    if h == [] {
    } else {
      NotYetRequested(db, h[..|h| - 1], r);
    }
  }

  ghost predicate Unreviewed(db: Db, r: RequestId) {
    IssuedFor(db.licenses, r) == {} && (r in db.requests ==> db.requests[r].status == Pending)
  }

  ghost predicate Followed(db: Db, r: RequestId, requested: Option<Positive>, reviews: nat, approvals: nat) {
    match requested
    case Some(quantity) => Reflects(db, r, quantity, reviews, approvals)
    case None => r !in db.requests && IssuedFor(db.licenses, r) == {} && reviews == 0 && approvals == 0
  }

  lemma CommitFollows(cfg: Config, db: Db, txn: Txn, r: RequestId, requested: Option<Positive>, reviews: nat, approvals: nat)
    requires Commit(cfg, db, txn).Ok? && Followed(db, r, requested, reviews, approvals)
    requires Creates(txn, r) ==> requested.None?
    ensures Followed(Commit(cfg, db, txn).value.db, r, if Creates(txn, r) then Some(txn.quantity) else requested,
                     reviews + (if IsReview(txn, r) then 1 else 0), approvals + (if IsApproval(txn, r) then 1 else 0))
  {
    if Creates(txn, r) {
      CreationReflects(cfg, db, txn, r);
    } else if requested.Some? {
      CommitReflects(cfg, db, txn, r, requested.value, reviews, approvals);
    } else {
      OriginsKept(cfg, db, txn, r);
    }
  }

  lemma {:induction false} HistoryFollows(cfg: Config, db: Db, h: seq<Txn>, r: RequestId)
    requires Committed(cfg, db, h) && Unreviewed(db, r) && CreatedOnce(db, h, r)
    ensures Followed(DbAfter(cfg, db, h), r, Requested(db, h, r), CountReviews(h, r), CountApprovals(h, r))
  {
    if h == [] {
    } else {
      var before, last := h[..|h| - 1], h[|h| - 1];
      HistoryFollows(cfg, db, before, r);
      if Creates(last, r) {
        NotYetRequested(db, before, r);
      }
      CommitFollows(cfg, DbAfter(cfg, db, before), last, r, Requested(db, before, r),
                    CountReviews(before, r), CountApprovals(before, r));
    }
  }

  /** Exactly once: a request is reviewed at most once in any history, its status is that review's verdict, and the
      licences issued for it number its quantity if the review approved it and none otherwise, even after the request
      itself is gone. */
  lemma IssuedExactlyOnce(cfg: Config, db: Db, h: seq<Txn>, r: RequestId)
    requires Committed(cfg, db, h) && Unreviewed(db, r) && CreatedOnce(db, h, r)
    ensures CountReviews(h, r) <= 1 && CountApprovals(h, r) <= CountReviews(h, r)
    ensures var issued := |IssuedFor(DbAfter(cfg, db, h).licenses, r)|;
            if CountApprovals(h, r) == 1 then Requested(db, h, r) == Some(issued) else issued == 0
    ensures var requests := DbAfter(cfg, db, h).requests;
            r in requests ==>
              && (requests[r].status == Approved <==> CountApprovals(h, r) == 1)
              && (requests[r].status == Rejected <==> CountReviews(h, r) == 1 && CountApprovals(h, r) == 0)
  {
    HistoryFollows(cfg, db, h, r);
  }

  // ----- what the new licences say

  lemma RowsCarryTerms(cfg: Config, terms: Terms, draws: Draws, n: nat, i: nat)
    requires i < n
    ensures var row := NewRows(cfg, terms, draws, n)[i].license;
            && row.owner == terms.owner && row.createdBy == Some(terms.creator) && row.status == Active
            && row.maxDevices == terms.maxDevices && row.expiresAt == terms.expiresAt && row.origin == terms.origin
            && row.lastVerifiedAt == None
  {
    RowsAndKeysAt(cfg, terms, draws, n, i);
  }

  lemma NewLicensesCarryTerms(cfg: Config, db: Db, terms: Terms, draws: Draws, n: nat, l: LicenseId)
    requires InsertBatch(db.users, db.licenses, NewRows(cfg, terms, draws, n)).Ok?
    requires l in InsertBatch(db.users, db.licenses, NewRows(cfg, terms, draws, n)).value && l !in db.licenses
    ensures var row := InsertBatch(db.users, db.licenses, NewRows(cfg, terms, draws, n)).value[l];
            && row.owner == terms.owner && row.createdBy == Some(terms.creator) && row.status == Active
            && row.maxDevices == terms.maxDevices && row.expiresAt == terms.expiresAt && row.origin == terms.origin
            && row.lastVerifiedAt == None
  {
    var rows := NewRows(cfg, terms, draws, n);
    BatchAdds(db.users, db.licenses, rows);
    RowIdsAreRows(rows);
    var i :| 0 <= i < |rows| && rows[i].id == l;
    RowsCarryTerms(cfg, terms, draws, n, i);
  }

  /** Every licence an approval adds belongs to the requesting reseller, was created by the approving administrator, is
      active, and has the request's device limit and lifetime. */
  lemma ApprovalGrantsWhatWasAsked(cfg: Config, db: Db, txn: Txn, l: LicenseId)
    requires txn.ApproveRequest? && Commit(cfg, db, txn).Ok?
    requires l in Commit(cfg, db, txn).value.db.licenses && l !in db.licenses
    ensures var row, request := Commit(cfg, db, txn).value.db.licenses[l], db.requests[txn.request];
            && row.owner == Some(request.reseller) && row.createdBy == Some(txn.admin) && row.status == Active
            && row.maxDevices == request.maxDevices
            && row.expiresAt == Some(txn.now + 24 * 60 * 60 * request.ttlDays) && row.origin == Some(txn.request)
  {
    var request := db.requests[txn.request];
    NewLicensesCarryTerms(cfg, db, TermsOf(txn.request, request, txn.admin, txn.now), txn.draws, request.quantity, l);
  }

  // ----- from the call that created a request to the licences issued for it

  lemma {:induction false} AbsentUntilCreated(cfg: Config, db: Db, h: seq<Txn>, r: RequestId)
    requires Committed(cfg, db, h) && r !in db.requests && forall i :: 0 <= i < |h| ==> !Creates(h[i], r)
    ensures r !in DbAfter(cfg, db, h).requests
  {
    if h == [] {
    } else {
      AbsentUntilCreated(cfg, db, h[..|h| - 1], r);
    }
  }

  ghost predicate AsCreated(request: KeyRequest, creation: Txn) {
    && creation.InsertRequest? && request.reseller == creation.reseller && request.quantity == creation.quantity
    && request.maxDevices == creation.maxDevices && request.ttlDays == creation.ttlDays
  }

  lemma CommitKeepsRequest(cfg: Config, db: Db, txn: Txn, r: RequestId)
    requires Commit(cfg, db, txn).Ok? && !Creates(txn, r) && r in Commit(cfg, db, txn).value.db.requests
    ensures r in db.requests
    ensures Commit(cfg, db, txn).value.db.requests[r].(status := Pending, reviewedBy := None)
         == db.requests[r].(status := Pending, reviewedBy := None)
  {
  }

  lemma CreationStores(cfg: Config, db: Db, creation: Txn, r: RequestId)
    requires Commit(cfg, db, creation).Ok? && Creates(creation, r)
    ensures var after := Commit(cfg, db, creation).value.db; r in after.requests && AsCreated(after.requests[r], creation)
  {
  }

  /** As long as a request is there it asks for what it was created with. */
  lemma {:induction false} RequestIsAsCreated(cfg: Config, db: Db, h: seq<Txn>, r: RequestId, c: nat)
    requires Committed(cfg, db, h) && CreatedOnce(db, h, r) && c < |h| && Creates(h[c], r)
    requires r in DbAfter(cfg, db, h).requests
    ensures AsCreated(DbAfter(cfg, db, h).requests[r], h[c])
  {
    var init, last := h[..|h| - 1], h[|h| - 1];
    if c == |h| - 1 {
      CreationStores(cfg, DbAfter(cfg, db, init), last, r);
    } else {
      CreatedOncePrefix(db, h, init, r, c);
      CommitKeepsRequest(cfg, DbAfter(cfg, db, init), last, r);
      RequestIsAsCreated(cfg, db, init, r, c);
    }
  }

  /** The licence is what the creating call asked for: its device limit, its lifetime counted from an approval in the
      history, and its reseller, until that account is deleted. */
  ghost predicate IssuedAs(row: License, h: seq<Txn>, r: RequestId, c: nat, a: nat) {
    && c < a < |h| && Creates(h[c], r) && IsApproval(h[a], r)
    && row.maxDevices == h[c].maxDevices && row.expiresAt == Some(h[a].now + 24 * 60 * 60 * h[c].ttlDays)
    && (row.owner == Some(h[c].reseller) || (row.owner == None && DeleteUser(h[c].reseller) in h))
  }

  lemma IssuedAsLater(row: License, row': License, h: seq<Txn>, last: Txn, r: RequestId, c: nat, a: nat)
    requires IssuedAs(row, h, r, c, a) && row'.maxDevices == row.maxDevices && row'.expiresAt == row.expiresAt
    requires row'.owner == row.owner || (row'.owner == None && last == DeleteUser(h[c].reseller))
    ensures IssuedAs(row', h + [last], r, c, a)
  {
    assert (h + [last])[c] == h[c] && (h + [last])[a] == h[a] && (h + [last])[|h|] == last;
    if DeleteUser(h[c].reseller) in h {
      var i :| 0 <= i < |h| && h[i] == DeleteUser(h[c].reseller);
      assert (h + [last])[i] == h[i];
    }
  }

  /** One transaction keeps an old licence's limit and expiry, and its owner unless it deletes the owner. */
  lemma OldLicenseKept(cfg: Config, db: Db, txn: Txn, l: LicenseId)
    requires Commit(cfg, db, txn).Ok? && l in db.licenses
    ensures var after := Commit(cfg, db, txn).value.db.licenses;
            && l in after && after[l].origin == db.licenses[l].origin
            && after[l].maxDevices == db.licenses[l].maxDevices && after[l].expiresAt == db.licenses[l].expiresAt
            && (after[l].owner == db.licenses[l].owner
                || (after[l].owner == None && txn.DeleteUser? && db.licenses[l].owner == Some(txn.id)))
  {
    match txn
    case ApproveRequest(q, admin, now, draws) =>
      BatchAdds(db.users, db.licenses, NewRows(cfg, TermsOf(q, db.requests[q], admin, now), draws, db.requests[q].quantity));
    case GenerateKeys(terms, number, draws) =>
      BatchAdds(db.users, db.licenses, NewRows(cfg, Direct(terms), draws, number));
    case _ =>
  }

  /** A new licence with an origin comes from an approval of that request. */
  lemma NewOriginIsApproved(cfg: Config, db: Db, txn: Txn, l: LicenseId, r: RequestId)
    requires Commit(cfg, db, txn).Ok? && l in Commit(cfg, db, txn).value.db.licenses && l !in db.licenses
    requires Commit(cfg, db, txn).value.db.licenses[l].origin == Some(r)
    ensures IsApproval(txn, r)
  {
    match txn
    case ApproveRequest(q, admin, now, draws) =>
      NewLicensesCarryTerms(cfg, db, TermsOf(q, db.requests[q], admin, now), draws, db.requests[q].quantity, l);
    case GenerateKeys(terms, number, draws) =>
      NewLicensesCarryTerms(cfg, db, Direct(terms), draws, number, l);
    case _ =>
  }

  lemma ApprovedAsCreated(cfg: Config, db: Db, h: seq<Txn>, last: Txn, r: RequestId, c: nat, l: LicenseId, before: Db)
    requires Committed(cfg, db, h) && before == DbAfter(cfg, db, h) && Commit(cfg, before, last).Ok?
    requires CreatedOnce(db, h, r) && c < |h| && Creates(h[c], r) && IsApproval(last, r)
    requires l in Commit(cfg, before, last).value.db.licenses && l !in before.licenses
    ensures IssuedAs(Commit(cfg, before, last).value.db.licenses[l], h + [last], r, c, |h|)
  {
    RequestIsAsCreated(cfg, db, h, r, c);
    ApprovalGrantsWhatWasAsked(cfg, before, last, l);
    assert (h + [last])[c] == h[c] && (h + [last])[|h|] == last;
  }

  lemma CreatedOncePrefix(db: Db, h: seq<Txn>, init: seq<Txn>, r: RequestId, c: nat)
    requires CreatedOnce(db, h, r) && c < |h| && Creates(h[c], r) && init == h[..|h| - 1]
    ensures CreatedOnce(db, init, r) && r !in db.requests
    ensures c < |init| ==> init[c] == h[c] && !Creates(h[|h| - 1], r)
    ensures c == |init| ==> forall i :: 0 <= i < |init| ==> !Creates(init[i], r)
  {
    assert forall i :: 0 <= i < |init| ==> init[i] == h[i];
  }

  lemma {:induction false} NoIssueBeforeCreation(cfg: Config, db: Db, h: seq<Txn>, r: RequestId, l: LicenseId)
    requires Committed(cfg, db, h) && r !in db.requests && forall i :: 0 <= i < |h| ==> !Creates(h[i], r)
    requires l in DbAfter(cfg, db, h).licenses && l !in db.licenses
    ensures DbAfter(cfg, db, h).licenses[l].origin != Some(r)
  {
    if h == [] {
    } else {
      var init := h[..|h| - 1];
      var before := DbAfter(cfg, db, init);
      AbsentUntilCreated(cfg, db, init, r);
      if l in before.licenses {
        NoIssueBeforeCreation(cfg, db, init, r, l);
        OldLicenseKept(cfg, before, h[|h| - 1], l);
      } else if DbAfter(cfg, db, h).licenses[l].origin == Some(r) {
        NewOriginIsApproved(cfg, before, h[|h| - 1], l, r);
      }
    }
  }

  /** From the call to the key: over any history every licence issued for a request has the device limit and the lifetime
      of the call that created the request, and belongs to the reseller that made it until that account is deleted. */
  lemma {:induction false} IssuedAsRequested(cfg: Config, db: Db, h: seq<Txn>, r: RequestId, c: nat, l: LicenseId)
    returns (a: nat)
    requires Committed(cfg, db, h) && CreatedOnce(db, h, r) && c < |h| && Creates(h[c], r)
    requires l in DbAfter(cfg, db, h).licenses && l !in db.licenses && DbAfter(cfg, db, h).licenses[l].origin == Some(r)
    ensures IssuedAs(DbAfter(cfg, db, h).licenses[l], h, r, c, a)
  {
    var init, last := h[..|h| - 1], h[|h| - 1];
    var before := DbAfter(cfg, db, init);
    assert h == init + [last];
    CreatedOncePrefix(db, h, init, r, c);
    if l !in before.licenses {
      NewOriginIsApproved(cfg, before, last, l, r);
      ApprovedAsCreated(cfg, db, init, last, r, c, l, before);
      a := |init|;
    } else {
      OldLicenseKept(cfg, before, last, l);
      if c == |h| - 1 {
        NoIssueBeforeCreation(cfg, db, init, r, l);
      }
      a := IssuedAsRequested(cfg, db, init, r, c, l);
      IssuedAsLater(before.licenses[l], DbAfter(cfg, db, h).licenses[l], init, last, r, c, a);
    }
  }

  // ----- deleting a user

  ghost predicate Mentions(db: Db, id: UserId) {
    || id in db.users
    || (exists l :: l in db.licenses && (db.licenses[l].owner == Some(id) || db.licenses[l].createdBy == Some(id)))
    || (exists r :: r in db.requests && (db.requests[r].reseller == id || db.requests[r].reviewedBy == Some(id)))
  }

  lemma SuspendedCount(db: Db, id: UserId, after: Db)
    requires after == DeleteRow(db.(licenses := BulkUpdated(db.licenses, id, Suspended)), id)
    ensures BulkTargets(db.licenses, id, Suspended)
         == set l | l in db.licenses && db.licenses[l].owner == Some(id) && after.licenses[l].status != db.licenses[l].status
  {
  }

  /** A deleted user is gone from every table; the keys it owned are unowned and asleep, and exactly those that were
      awake are reported; all other keys, users and requests keep their rows up to references to the user. */
  lemma DeletionIsClean(cfg: Config, db: Db, id: UserId)
    requires Commit(cfg, db, DeleteUser(id)).Ok?
    ensures var effect := Commit(cfg, db, DeleteUser(id)).value;
            var after := effect.db;
            var suspended := set l | l in db.licenses && db.licenses[l].owner == Some(id)
              && after.licenses[l].status != db.licenses[l].status;
            && !Mentions(after, id)
            && after.users == db.users - {id} && after.licenses.Keys == db.licenses.Keys
            && effect.reply == Updated(|suspended|)
            && (forall l :: l in db.licenses && db.licenses[l].owner == Some(id) ==>
                  after.licenses[l].owner == None
                  && after.licenses[l].status == if db.licenses[l].status == Active then Suspended else db.licenses[l].status)
            && (forall l :: l in db.licenses && db.licenses[l].owner != Some(id) ==>
                  after.licenses[l].owner == db.licenses[l].owner && after.licenses[l].status == db.licenses[l].status)
            && (forall l :: l in db.licenses ==>
                  && after.licenses[l].createdBy == (if db.licenses[l].createdBy == Some(id) then None else db.licenses[l].createdBy)
                  && after.licenses[l].keyPrefix == db.licenses[l].keyPrefix && after.licenses[l].origin == db.licenses[l].origin
                  && after.licenses[l].lastVerifiedAt == db.licenses[l].lastVerifiedAt
                  && Leases.SameTerms(db.licenses[l], after.licenses[l]))
            && (forall r :: r in after.requests <==> r in db.requests && db.requests[r].reseller != id)
            && (forall r :: r in after.requests ==>
                  && after.requests[r].(reviewedBy := None) == db.requests[r].(reviewedBy := None)
                  && after.requests[r].reviewedBy == if db.requests[r].reviewedBy == Some(id) then None else db.requests[r].reviewedBy)
  {
    SuspendedCount(db, id, Commit(cfg, db, DeleteUser(id)).value.db);
  }

  // ----- issued keys keep working

  lemma {:induction false} TermsOutlive(cfg: Config, db: Db, h: seq<Txn>, l: LicenseId)
    requires Sound(db) && Committed(cfg, db, h) && l in db.licenses
    ensures l in DbAfter(cfg, db, h).licenses && Leases.SameTerms(db.licenses[l], DbAfter(cfg, db, h).licenses[l])
  {
    if h == [] {
    } else {
      TermsOutlive(cfg, db, h[..|h| - 1], l);
      HistoryKeepsSound(cfg, db, h[..|h| - 1]);
      CommitEvolvesLicenses(cfg, DbAfter(cfg, db, h[..|h| - 1]), h[|h| - 1]);
    }
  }

  /** The licence row belongs to the returned key: its hash, its display prefix and its terms. */
  ghost predicate Stores(cfg: Config, row: License, key: GeneratedLicense) {
    && row.keyHash == cfg.digest(Crypto.Normalize(key.licenseKey))
    && row.keyPrefix == key.keyPrefix == Crypto.Prefix(key.licenseKey)
    && row.owner == key.owner && row.status == key.status == Active
    && row.maxDevices == key.maxDevices && row.expiresAt == key.expiresAt && row.lastVerifiedAt == None
  }

  /** The i-th returned key is the text of the i-th draw. It is stored under its id as the hash of its normal form and
      the first 14 of its 29 significant characters, never as a whole. */
  lemma ReturnedKeyIsStored(cfg: Config, db: Db, txn: Txn, i: nat)
    requires Commit(cfg, db, txn).Ok?
    requires var reply := Commit(cfg, db, txn).value.reply; reply.Issued? && i < |reply.keys|
    ensures var effect := Commit(cfg, db, txn).value;
            var key := effect.reply.keys[i];
            && (txn.ApproveRequest? || txn.GenerateKeys?)
            && key.id == txn.draws(i).id && key.licenseKey == Crypto.KeyText(txn.draws(i).bytes)
            && key.id in effect.db.licenses && key.id !in db.licenses && Stores(cfg, effect.db.licenses[key.id], key)
            && |Crypto.Normalize(key.licenseKey)| == 29 && key.keyPrefix == Crypto.Normalize(key.licenseKey)[..14]
  {
    var terms, n;
    if txn.ApproveRequest? {
      terms, n := TermsOf(txn.request, db.requests[txn.request], txn.admin, txn.now), db.requests[txn.request].quantity;
    } else {
      terms, n := Direct(txn.terms), txn.number;
    }
    StoredAsDrawn(cfg, db, terms, txn.draws, n, i);
    Crypto.PrefixIsPart(txn.draws(i).bytes);
  }

  lemma StoredAsDrawn(cfg: Config, db: Db, terms: Terms, draws: Draws, n: nat, i: nat)
    requires InsertBatch(db.users, db.licenses, NewRows(cfg, terms, draws, n)).Ok? && i < n
    ensures var after := InsertBatch(db.users, db.licenses, NewRows(cfg, terms, draws, n)).value;
            var key := GeneratedBatch(terms, draws, n)[i];
            && key.id == draws(i).id && key.licenseKey == Crypto.KeyText(draws(i).bytes)
            && key.id in after && key.id !in db.licenses && Stores(cfg, after[key.id], key)
  {
    var rows := NewRows(cfg, terms, draws, n);
    BatchAdds(db.users, db.licenses, rows);
    RowsAndKeysAt(cfg, terms, draws, n, i);
    IdAmongRows(rows, i);
  }

  lemma {:induction false} IdAmongRows(rows: seq<NewRow>, i: nat)
    requires i < |rows|
    ensures rows[i].id in RowIds(rows)
  {
    if i < |rows| - 1 {
      IdAmongRows(rows[..|rows| - 1], i);
    }
  }

  /** Every key a transaction returns, typed with any harmless changes, looks up exactly its own licence in the tables
      after the transaction and after any later history, with the device limit and expiry it was issued with. */
  lemma IssuedKeysWork(cfg: Config, db: Db, txn: Txn, i: nat, edits: seq<Crypto.Edit>, h: seq<Txn>)
    requires Sound(db) && Commit(cfg, db, txn).Ok?
    requires var reply := Commit(cfg, db, txn).value.reply; reply.Issued? && i < |reply.keys|
    requires Committed(cfg, Commit(cfg, db, txn).value.db, h)
    ensures var key := Commit(cfg, db, txn).value.reply.keys[i];
            var later := DbAfter(cfg, Commit(cfg, db, txn).value.db, h).licenses;
            && Lookup(later, cfg.digest(Crypto.Normalize(Crypto.ApplyEdits(key.licenseKey, edits)))) == Some(key.id)
            && later[key.id].maxDevices == key.maxDevices && later[key.id].expiresAt == key.expiresAt
  {
    var after := Commit(cfg, db, txn).value.db;
    var key := Commit(cfg, db, txn).value.reply.keys[i];
    ReturnedKeyIsStored(cfg, db, txn, i);
    CommitKeepsSound(cfg, db, txn);
    TermsOutlive(cfg, after, h, key.id);
    HistoryKeepsSound(cfg, after, h);
    Crypto.EditsKeepKey(key.licenseKey, edits);
    var later := DbAfter(cfg, after, h).licenses;
    var hash := cfg.digest(Crypto.Normalize(Crypto.ApplyEdits(key.licenseKey, edits)));
    assert later[key.id].keyHash == hash;
    assert Lookup(later, hash) == Some(key.id);
  }

  /** The key works as well after any history of verifies, releases, status changes and back-office changes, in any
      order and from any state of the activations. */
  lemma IssuedKeysSurvive(cfg: Config, db: Db, txn: Txn, i: nat, edits: seq<Crypto.Edit>, window: nat,
                          t: Leases.Tables, start: Time, h: seq<SeatHistory.Event>)
    requires Sound(db) && Commit(cfg, db, txn).Ok? && t.licenses == Commit(cfg, db, txn).value.db.licenses
    requires var reply := Commit(cfg, db, txn).value.reply; reply.Issued? && i < |reply.keys|
    requires SeatHistory.Good(window, t, start) && SeatHistory.Legal(window, t, start, h)
    ensures var key := Commit(cfg, db, txn).value.reply.keys[i];
            var later := SeatHistory.Replay(window, t, h).licenses;
            && Lookup(later, cfg.digest(Crypto.Normalize(Crypto.ApplyEdits(key.licenseKey, edits)))) == Some(key.id)
            && later[key.id].maxDevices == key.maxDevices && later[key.id].expiresAt == key.expiresAt
  {
    var key := Commit(cfg, db, txn).value.reply.keys[i];
    ReturnedKeyIsStored(cfg, db, txn, i);
    Crypto.EditsKeepKey(key.licenseKey, edits);
    SeatHistory.KeysStayFound(window, t, start, h, key.id);
    SeatHistory.TermsNeverChange(window, t, start, h, key.id);
  }

  /** A verify with that text, whatever activations there are by then, is decided on that licence: it is granted a seat
      there or refused for one of that licence's own reasons, never as an invalid key. */
  lemma IssuedKeysVerify(cfg: Config, db: Db, txn: Txn, i: nat, edits: seq<Crypto.Edit>, h: seq<Txn>, window: nat,
                         leases: Leases.LeaseTable, device: Digest, expiryAt: Time, liveAt: Time, countAt: Time)
    requires Sound(db) && Commit(cfg, db, txn).Ok?
    requires var reply := Commit(cfg, db, txn).value.reply; reply.Issued? && i < |reply.keys|
    requires Committed(cfg, Commit(cfg, db, txn).value.db, h)
    ensures var key := Commit(cfg, db, txn).value.reply.keys[i];
            var t := Leases.Tables(DbAfter(cfg, Commit(cfg, db, txn).value.db, h).licenses, leases);
            var keyHash := cfg.digest(Crypto.Normalize(Crypto.ApplyEdits(key.licenseKey, edits)));
            match Leases.ThreePath(window, t, keyHash, device, expiryAt, liveAt, countAt)
            case Grant(slot) => slot == Leases.Slot(key.id, device)
            case Deny(code, license, _) => code != Leases.InvalidKey && license == Some(key.id)
  {
    IssuedKeysWork(cfg, db, txn, i, edits, h);
  }

  // ----- revocation

  /** A change of one key's status to anything but revoked. */
  predicate Lifts(txn: Txn, l: LicenseId) {
    txn.LicenseUpdate? && txn.license == l && txn.status != Revoked
  }

  /** The only transaction that brings a revoked key back is such a change. */
  lemma RevocationLifted(cfg: Config, db: Db, txn: Txn, l: LicenseId)
    requires Commit(cfg, db, txn).Ok? && IsRevoked(db, l)
    ensures l in Commit(cfg, db, txn).value.db.licenses
    ensures IsRevoked(Commit(cfg, db, txn).value.db, l) <==> !Lifts(txn, l)
  {
    match txn
    case ApproveRequest(r, admin, now, draws) =>
      BatchAdds(db.users, db.licenses, NewRows(cfg, TermsOf(r, db.requests[r], admin, now), draws, db.requests[r].quantity));
    case GenerateKeys(terms, number, draws) =>
      BatchAdds(db.users, db.licenses, NewRows(cfg, Direct(terms), draws, number));
    case _ =>
  }

  predicate IsRevoked(db: Db, l: LicenseId) {
    l in db.licenses && db.licenses[l].status == Revoked
  }

  ghost predicate StaysRevoked(cfg: Config, db: Db, h: seq<Txn>, l: LicenseId) {
    forall n :: 0 <= n <= |h| ==> IsRevoked(DbAfter(cfg, db, h[..n]), l)
  }

  /** Revocation is not final: a revoked key stays revoked throughout a history exactly when no single-key change in the
      history lifts it; neither bulk changes nor the deletion of its owner ever do. */
  lemma {:induction false} RevokedUntilLifted(cfg: Config, db: Db, h: seq<Txn>, l: LicenseId)
    requires Committed(cfg, db, h) && IsRevoked(db, l)
    ensures StaysRevoked(cfg, db, h, l) <==> forall i :: 0 <= i < |h| ==> !Lifts(h[i], l)
  {
    if h == [] {
      assert forall n :: 0 <= n <= |h| ==> h[..n] == [];
    } else {
      var before, last := h[..|h| - 1], h[|h| - 1];
      RevokedUntilLifted(cfg, db, before, l);
      RevokedOneMore(cfg, db, h, l);
      assert forall i :: 0 <= i < |before| ==> before[i] == h[i];
      assert (forall i :: 0 <= i < |h| ==> !Lifts(h[i], l))
        <==> (forall i :: 0 <= i < |before| ==> !Lifts(before[i], l)) && !Lifts(last, l);
    }
  }

  lemma RevokedOneMore(cfg: Config, db: Db, h: seq<Txn>, l: LicenseId)
    requires h != [] && Committed(cfg, db, h)
    ensures StaysRevoked(cfg, db, h, l) <==> StaysRevoked(cfg, db, h[..|h| - 1], l) && !Lifts(h[|h| - 1], l)
  {
    var before, last := h[..|h| - 1], h[|h| - 1];
    assert forall n :: 0 <= n <= |before| ==> before[..n] == h[..n];
    assert h[..|h|] == h && before[..|before|] == before;
    if IsRevoked(DbAfter(cfg, db, before), l) {
      RevocationLifted(cfg, DbAfter(cfg, db, before), last, l);
    }
  }
}
