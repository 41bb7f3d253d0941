/**
 Every interleaved run of issuing transactions leaves a committed history of module Ledger that ends in the same
 tables; so at most one review of a request ever commits, and the ledger results hold of every run.
 */
module IssuanceTheorems {
  import opened Models
  import opened Database
  import opened Ledger
  import opened IssuanceProtocol
  import Backoffice

  // ----- when a batch can be inserted

  ghost predicate Admissible(users: map<UserId, User>, licenses: map<LicenseId, License>, row: NewRow) {
    && !IdOrHashTaken(licenses, row.id, row.license.keyHash)
    && UserExists(users, row.license.owner) && UserExists(users, row.license.createdBy)
  }

  ghost predicate Distinct(rows: seq<NewRow>) {
    forall i, j :: 0 <= i < j < |rows| ==> !Clash(rows[j], rows[i])
  }

  /** The rows fit into the tables as they are, in any company. */
  ghost predicate Insertable(users: map<UserId, User>, licenses: map<LicenseId, License>, rows: seq<NewRow>) {
    (forall i :: 0 <= i < |rows| ==> Admissible(users, licenses, rows[i])) && Distinct(rows)
  }

  lemma {:induction false} WithRowsKeys(licenses: map<LicenseId, License>, rows: seq<NewRow>)
    ensures forall l :: l in WithRows(licenses, rows) ==>
        (l in licenses && WithRows(licenses, rows)[l] == licenses[l])
        || exists i :: 0 <= i < |rows| && rows[i].id == l && WithRows(licenses, rows)[l] == rows[i].license
  {
    if rows == [] {
    } else {
      var before, last := rows[..|rows| - 1], rows[|rows| - 1];
      WithRowsKeys(licenses, before);
      var all, mid := WithRows(licenses, rows), WithRows(licenses, before);
      forall l | l in all
        ensures (l in licenses && all[l] == licenses[l])
             || exists i :: 0 <= i < |rows| && rows[i].id == l && all[l] == rows[i].license
      {
        if l == last.id {
          assert rows[|rows| - 1].id == l;
        } else if !(l in licenses && mid[l] == licenses[l]) {
          var i :| 0 <= i < |before| && before[i].id == l && mid[l] == before[i].license;
          assert rows[i] == before[i];
        }
      }
    }
  }

  /** Rows that fit are inserted by the loop one after the other, with the result of making them all visible at once. */
  lemma {:induction false} InsertableInserts(users: map<UserId, User>, licenses: map<LicenseId, License>, rows: seq<NewRow>)
    requires Insertable(users, licenses, rows)
    ensures InsertBatch(users, licenses, rows) == Ok(WithRows(licenses, rows))
  {
    if rows == [] {
    } else {
      var before, last := rows[..|rows| - 1], rows[|rows| - 1];
      assert Insertable(users, licenses, before);
      InsertableInserts(users, licenses, before);
      WithRowsKeys(licenses, before);
      assert Admissible(users, licenses, rows[|rows| - 1]);
      forall i | 0 <= i < |before| ensures !Clash(last, before[i]) {
        assert before[i] == rows[i];
      }
      assert !IdOrHashTaken(WithRows(licenses, before), last.id, last.license.keyHash);
    }
  }

  // ----- the invariant

  ghost predicate ReviewOk(cfg: Config, s: State, r: RequestId, row: KeyRequest) {
    r in s.db.requests && s.db.requests[r] == row && row.status == Pending
  }

  ghost predicate PendingOk(cfg: Config, s: State, tx: Tx) {
    Insertable(s.db.users, s.db.licenses, PendingRows(cfg, tx))
  }

  /** A committed transaction is the one at its place in the log. */
  ghost predicate Logged(log: seq<Txn>, tx: Tx) {
    match tx
    case Approval(r, admin, draws, ReviewCommitted(at)) =>
      at < |log| && IsApproval(log[at], r) && log[at].admin == admin && log[at].draws == draws
    case Rejection(r, admin, ReviewCommitted(at)) => at < |log| && log[at] == RejectRequest(r, admin)
    case Generation(terms, number, draws, GenerationCommitted(at)) => at < |log| && log[at] == GenerateKeys(terms, number, draws)
    case _ => true
  }

  ghost predicate TxOk(cfg: Config, s: State, tx: Tx) {
    match tx
    case Approval(r, admin, draws, Reviewing(row, now, i)) =>
      ReviewOk(cfg, s, r, row) && i <= row.quantity <= cfg.maxBatch && PendingOk(cfg, s, tx)
    case Approval(r, admin, draws, Marked(row, now)) =>
      ReviewOk(cfg, s, r, row) && row.quantity <= cfg.maxBatch && PendingOk(cfg, s, tx)
    case Approval(_, _, _, ReviewCommitted(_)) => Logged(s.log, tx)
    case Rejection(r, _, Reviewing(row, _, _)) => ReviewOk(cfg, s, r, row)
    case Rejection(r, admin, Marked(row, _)) => ReviewOk(cfg, s, r, row) && admin in s.db.users
    case Rejection(_, _, ReviewCommitted(_)) => Logged(s.log, tx)
    case Generation(terms, number, draws, Generating(i)) =>
      (i > 0 ==> i <= number <= cfg.maxBatch) && PendingOk(cfg, s, tx)
    case Generation(_, _, _, GenerationCommitted(_)) => Logged(s.log, tx)
    case _ => true
  }

  /** The place of the transaction's commit in the log. */
  function CommitPlace(tx: Tx): Option<nat> {
    match tx
    case Approval(_, _, _, ReviewCommitted(at)) => Some(at)
    case Rejection(_, _, ReviewCommitted(at)) => Some(at)
    case Generation(_, _, _, GenerationCommitted(at)) => Some(at)
    case _ => None
  }

  predicate RowsApart(a: seq<NewRow>, b: seq<NewRow>) {
    forall i :: 0 <= i < |a| ==> !ClashesWith(a[i], b)
  }

  ghost predicate Apart(cfg: Config, a: Tx, b: Tx) {
    && (LockedRequest(a).Some? ==> LockedRequest(a) != LockedRequest(b))
    && (CommitPlace(a).Some? ==> CommitPlace(a) != CommitPlace(b))
    && RowsApart(PendingRows(cfg, a), PendingRows(cfg, b))
  }

  ghost predicate Exclusive(cfg: Config, txs: map<TxId, Tx>) {
    forall t, u :: t in txs && u in txs && t != u ==> Apart(cfg, txs[t], txs[u])
  }

  ghost predicate Inv(cfg: Config, init: Db, s: State) {
    && Sound(init) && Committed(cfg, init, s.log) && DbAfter(cfg, init, s.log) == s.db
    && Exclusive(cfg, s.txs)
    && forall t :: t in s.txs ==> TxOk(cfg, s, s.txs[t])
  }

  ghost predicate Initial(s: State) {
    Sound(s.db) && s.txs == map[] && s.log == []
  }

  // ----- frames

  ghost predicate Undisturbed(cfg: Config, s: State, s': State, tx: Tx) {
    && (LockedRequest(tx).Some? && LockedRequest(tx).value in s.db.requests ==>
          LockedRequest(tx).value in s'.db.requests
          && s'.db.requests[LockedRequest(tx).value] == s.db.requests[LockedRequest(tx).value])
    && (forall i :: 0 <= i < |PendingRows(cfg, tx)| && Admissible(s.db.users, s.db.licenses, PendingRows(cfg, tx)[i])
          ==> Admissible(s'.db.users, s'.db.licenses, PendingRows(cfg, tx)[i]))
    && (tx.Rejection? && tx.rpc.Marked? && tx.admin in s.db.users ==> tx.admin in s'.db.users)
    && |s.log| <= |s'.log| && s'.log[..|s.log|] == s.log
  }

  lemma StaysOk(cfg: Config, s: State, s': State, tx: Tx)
    requires TxOk(cfg, s, tx) && Undisturbed(cfg, s, s', tx)
    ensures TxOk(cfg, s', tx)
  {
    if CommitPlace(tx).Some? {
      assert s'.log[CommitPlace(tx).value] == s.log[CommitPlace(tx).value];
    } else if LockedRequest(tx).Some? || tx.Generation? {
      assert PendingOk(cfg, s, tx) ==> PendingOk(cfg, s', tx);
    }
  }

  /** The moved transaction keeps its distance from the others. */
  ghost predicate KeepsApart(cfg: Config, s: State, tid: TxId, tx': Tx) {
    forall t :: t in s.txs && t != tid ==> Apart(cfg, tx', s.txs[t]) && Apart(cfg, s.txs[t], tx')
  }

  lemma QuietStep(cfg: Config, init: Db, s: State, tid: TxId, tx': Tx)
    requires Inv(cfg, init, s) && TxOk(cfg, s, tx') && KeepsApart(cfg, s, tid, tx')
    ensures Inv(cfg, init, s.(txs := s.txs[tid := tx']))
  {
    var s' := s.(txs := s.txs[tid := tx']);
    forall t | t in s'.txs ensures TxOk(cfg, s', s'.txs[t]) {
      StaysOk(cfg, s, s', s'.txs[t]);
    }
  }

  lemma CommittedExtend(cfg: Config, init: Db, h: seq<Txn>, txn: Txn)
    requires Committed(cfg, init, h) && Commit(cfg, DbAfter(cfg, init, h), txn).Ok?
    ensures Committed(cfg, init, h + [txn])
    ensures DbAfter(cfg, init, h + [txn]) == Commit(cfg, DbAfter(cfg, init, h), txn).value.db
  {
    assert (h + [txn])[..|h|] == h;
  }

  lemma EffectiveStep(cfg: Config, init: Db, s: State, s': State, tid: TxId, tx': Tx, txn: Txn)
    requires Inv(cfg, init, s) && Commit(cfg, s.db, txn).Ok?
    requires s' == State(Commit(cfg, s.db, txn).value.db, s.txs[tid := tx'], s.log + [txn])
    requires TxOk(cfg, s', tx') && KeepsApart(cfg, s, tid, tx')
    requires forall t :: t in s.txs && t != tid ==> Undisturbed(cfg, s, s', s.txs[t])
    ensures Inv(cfg, init, s')
  {
    CommittedExtend(cfg, init, s.log, txn);
    forall t | t in s'.txs ensures TxOk(cfg, s', s'.txs[t]) {
      if t != tid {
        StaysOk(cfg, s, s', s.txs[t]);
      }
    }
  }

  // ----- inserts

  lemma ApartWithoutRows(cfg: Config, s: State, tid: TxId, tx': Tx)
    requires PendingRows(cfg, tx') == [] && LockedRequest(tx').None? && CommitPlace(tx').None?
    ensures KeepsApart(cfg, s, tid, tx')
  {
  }

  lemma ApartWithOneMore(cfg: Config, s: State, tid: TxId, tx': Tx, row: NewRow)
    requires Exclusive(cfg, s.txs) && tid in s.txs && !ClashesElsewhere(cfg, s, tid, row)
    requires PendingRows(cfg, tx') == PendingRows(cfg, s.txs[tid]) + [row]
    requires LockedRequest(tx') == LockedRequest(s.txs[tid]) && CommitPlace(tx').None?
    ensures KeepsApart(cfg, s, tid, tx')
  {
    var rows, rows' := PendingRows(cfg, s.txs[tid]), PendingRows(cfg, tx');
    forall t | t in s.txs && t != tid
      ensures RowsApart(rows', PendingRows(cfg, s.txs[t])) && RowsApart(PendingRows(cfg, s.txs[t]), rows')
    {
      var others := PendingRows(cfg, s.txs[t]);
      assert Apart(cfg, s.txs[tid], s.txs[t]) && Apart(cfg, s.txs[t], s.txs[tid]);
      assert !ClashesWith(row, others);
      forall i | 0 <= i < |others| ensures !ClashesWith(others[i], rows') {
        assert !ClashesWith(others[i], rows);
        assert !Clash(row, others[i]);
      }
    }
  }

  lemma InsertableOneMore(users: map<UserId, User>, licenses: map<LicenseId, License>, rows: seq<NewRow>, row: NewRow)
    requires Insertable(users, licenses, rows) && Admissible(users, licenses, row) && !ClashesWith(row, rows)
    ensures Insertable(users, licenses, rows + [row])
  {
  }

  /** A round of the generation loop. */
  lemma InsertStep(cfg: Config, init: Db, s: State, tid: TxId, row: NewRow, tx': Tx)
    requires Inv(cfg, init, s) && tid in s.txs && PendingOk(cfg, s, s.txs[tid])
    requires Insert(cfg, s, tid, row, tx').Some?
    requires PendingRows(cfg, tx') == PendingRows(cfg, s.txs[tid]) + [row]
    requires LockedRequest(tx') == LockedRequest(s.txs[tid]) && CommitPlace(tx').None?
    requires PendingOk(cfg, s, tx') ==> TxOk(cfg, s, tx')
    ensures Inv(cfg, init, Insert(cfg, s, tid, row, tx').value)
  {
    var next := Insert(cfg, s, tid, row, tx').value.txs[tid];
    if next.Failed? && next != tx' {
      ApartWithoutRows(cfg, s, tid, next);
      QuietStep(cfg, init, s, tid, next);
    } else if !IdOrHashTaken(s.db.licenses, row.id, row.license.keyHash) && !ClashesWith(row, PendingRows(cfg, s.txs[tid]))
      && UserExists(s.db.users, row.license.owner) && UserExists(s.db.users, row.license.createdBy) {
      InsertableOneMore(s.db.users, s.db.licenses, PendingRows(cfg, s.txs[tid]), row);
      ApartWithOneMore(cfg, s, tid, tx', row);
      QuietStep(cfg, init, s, tid, tx');
    }
  }

  // ----- quiet moves

  lemma ApartWithLock(cfg: Config, s: State, tid: TxId, tx': Tx, r: RequestId)
    requires RequestFree(s, r) && LockedRequest(tx') == Some(r)
    requires PendingRows(cfg, tx') == [] && CommitPlace(tx').None?
    ensures KeepsApart(cfg, s, tid, tx')
  {
  }

  lemma ApartAsBefore(cfg: Config, s: State, tid: TxId, tx': Tx)
    requires Exclusive(cfg, s.txs) && tid in s.txs && CommitPlace(tx').None?
    requires PendingRows(cfg, tx') == PendingRows(cfg, s.txs[tid]) && LockedRequest(tx') == LockedRequest(s.txs[tid])
    ensures KeepsApart(cfg, s, tid, tx')
  {
    forall t | t in s.txs && t != tid ensures Apart(cfg, tx', s.txs[t]) && Apart(cfg, s.txs[t], tx') {
      assert Apart(cfg, s.txs[tid], s.txs[t]) && Apart(cfg, s.txs[t], s.txs[tid]);
    }
  }

  /** Beginning, failing and being dropped: no lock, no private rows. */
  lemma IdleMove(cfg: Config, init: Db, s: State, tid: TxId, tx': Tx)
    requires Inv(cfg, init, s) && (Starting(tx') || tx'.Failed? || tx'.Dropped?)
    ensures Inv(cfg, init, s.(txs := s.txs[tid := tx']))
  {
    ApartWithoutRows(cfg, s, tid, tx');
    QuietStep(cfg, init, s, tid, tx');
  }

  lemma LockMove(cfg: Config, init: Db, s: State, tid: TxId, tx': Tx, r: RequestId)
    requires Inv(cfg, init, s) && RequestFree(s, r) && LockedRequest(tx') == Some(r)
    requires PendingRows(cfg, tx') == [] && CommitPlace(tx').None? && TxOk(cfg, s, tx')
    ensures Inv(cfg, init, s.(txs := s.txs[tid := tx']))
  {
    ApartWithLock(cfg, s, tid, tx', r);
    QuietStep(cfg, init, s, tid, tx');
  }

  /** The request is refused, or locked with no row inserted yet. */
  lemma ReviewStarts(cfg: Config, init: Db, s: State, tid: TxId, tx': Tx, r: RequestId)
    requires Inv(cfg, init, s)
    requires !tx'.Failed? ==>
        && RequestFree(s, r) && LockedRequest(tx') == Some(r)
        && PendingRows(cfg, tx') == [] && CommitPlace(tx').None? && TxOk(cfg, s, tx')
    ensures Inv(cfg, init, s.(txs := s.txs[tid := tx']))
  {
    if tx'.Failed? {
      IdleMove(cfg, init, s, tid, tx');
    } else {
      LockMove(cfg, init, s, tid, tx', r);
    }
  }

  lemma MarkMove(cfg: Config, init: Db, s: State, tid: TxId, tx': Tx)
    requires Inv(cfg, init, s) && tid in s.txs && CommitPlace(tx').None? && TxOk(cfg, s, tx')
    requires PendingRows(cfg, tx') == PendingRows(cfg, s.txs[tid]) && LockedRequest(tx') == LockedRequest(s.txs[tid])
    ensures Inv(cfg, init, s.(txs := s.txs[tid := tx']))
  {
    ApartAsBefore(cfg, s, tid, tx');
    QuietStep(cfg, init, s, tid, tx');
  }

  // ----- commits

  lemma StillAdmissible(users: map<UserId, User>, licenses: map<LicenseId, License>, rows: seq<NewRow>, row: NewRow)
    requires Admissible(users, licenses, row) && !ClashesWith(row, rows)
    ensures Admissible(users, WithRows(licenses, rows), row)
  {
    StaysUntaken(licenses, rows, row);
  }

  /** A commit of private rows and of the locked request disturbs nobody. */
  lemma OthersUndisturbed(cfg: Config, s: State, s': State, tid: TxId, t: TxId, txn: Txn)
    requires Exclusive(cfg, s.txs) && tid in s.txs && t in s.txs && t != tid
    requires s'.db.users == s.db.users && s'.db.licenses == WithRows(s.db.licenses, PendingRows(cfg, s.txs[tid]))
    requires s'.log == s.log + [txn]
    requires forall r :: r in s.db.requests && LockedRequest(s.txs[tid]) != Some(r) ==>
        r in s'.db.requests && s'.db.requests[r] == s.db.requests[r]
    ensures Undisturbed(cfg, s, s', s.txs[t])
  {
    var rows, others := PendingRows(cfg, s.txs[tid]), PendingRows(cfg, s.txs[t]);
    assert Apart(cfg, s.txs[t], s.txs[tid]);
    forall i | 0 <= i < |others| && Admissible(s.db.users, s.db.licenses, others[i])
      ensures Admissible(s'.db.users, s'.db.licenses, others[i])
    {
      assert !ClashesWith(others[i], rows);
      StillAdmissible(s.db.users, s.db.licenses, rows, others[i]);
    }
    assert s'.log[..|s.log|] == s.log;
  }

  lemma ApartOnceCommitted(cfg: Config, init: Db, s: State, tid: TxId, tx': Tx)
    requires Inv(cfg, init, s) && CommitPlace(tx') == Some(|s.log|)
    ensures KeepsApart(cfg, s, tid, tx')
  {
    NothingHeld(cfg, tx');
    forall t | t in s.txs && t != tid ensures CommitPlace(s.txs[t]) != Some(|s.log|) {
      assert TxOk(cfg, s, s.txs[t]);
    }
  }

  lemma CommitMove(cfg: Config, init: Db, s: State, s': State, tid: TxId, tx': Tx, txn: Txn)
    requires Inv(cfg, init, s) && tid in s.txs
    requires Commit(cfg, s.db, txn).Ok? && s' == State(Commit(cfg, s.db, txn).value.db, s.txs[tid := tx'], s.log + [txn])
    requires s'.db.users == s.db.users && s'.db.licenses == WithRows(s.db.licenses, PendingRows(cfg, s.txs[tid]))
    requires forall r :: r in s.db.requests && LockedRequest(s.txs[tid]) != Some(r) ==>
        r in s'.db.requests && s'.db.requests[r] == s.db.requests[r]
    requires CommitPlace(tx') == Some(|s.log|) && Logged(s'.log, tx')
    ensures Inv(cfg, init, s')
  {
    ApartOnceCommitted(cfg, init, s, tid, tx');
    forall t | t in s.txs && t != tid ensures Undisturbed(cfg, s, s', s.txs[t]) {
      OthersUndisturbed(cfg, s, s', tid, t, txn);
    }
    EffectiveStep(cfg, init, s, s', tid, tx', txn);
  }

  // ----- each kind of transaction

  lemma NothingHeld(cfg: Config, tx: Tx)
    requires CommitPlace(tx).Some?
    ensures PendingRows(cfg, tx) == [] && LockedRequest(tx).None?
  {
  }

  lemma ApprovalTakesEffect(cfg: Config, db: Db, txn: Txn, row: KeyRequest, rows: seq<NewRow>)
    requires txn.ApproveRequest? && txn.request in db.requests && db.requests[txn.request] == row
    requires row.status == Pending && row.quantity <= cfg.maxBatch
    requires rows == NewRows(cfg, TermsOf(txn.request, row, txn.admin, txn.now), txn.draws, row.quantity)
    requires Insertable(db.users, db.licenses, rows)
    ensures Commit(cfg, db, txn).Ok?
    ensures Commit(cfg, db, txn).value.db
         == Db(db.users, WithRows(db.licenses, rows), db.requests[txn.request := Reviewed(row, Approved, txn.admin)])
  {
    InsertableInserts(db.users, db.licenses, rows);
  }

  lemma ApprovalCommits(cfg: Config, init: Db, s: State, s': State, tid: TxId, tx: Tx, row: KeyRequest, now: Time)
    requires Inv(cfg, init, s) && tid in s.txs && s.txs[tid] == tx && tx.Approval? && tx.apc == Marked(row, now)
    requires s' == State(Db(s.db.users, WithRows(s.db.licenses, PendingRows(cfg, tx)),
                            s.db.requests[tx.request := Reviewed(row, Approved, tx.admin)]),
                         s.txs[tid := tx.(apc := ReviewCommitted(|s.log|))],
                         s.log + [ApproveRequest(tx.request, tx.admin, now, tx.draws)])
    ensures Inv(cfg, init, s')
  {
    var txn := ApproveRequest(tx.request, tx.admin, now, tx.draws);
    assert TxOk(cfg, s, tx);
    ApprovalTakesEffect(cfg, s.db, txn, row, PendingRows(cfg, tx));
    CommitMove(cfg, init, s, s', tid, tx.(apc := ReviewCommitted(|s.log|)), txn);
  }

  lemma ApprovalInserts(cfg: Config, init: Db, s: State, tid: TxId, tx: Tx, row: KeyRequest, now: Time, inserted: nat)
    requires Inv(cfg, init, s) && tid in s.txs && s.txs[tid] == tx && tx.Approval?
    requires tx.apc == Reviewing(row, now, inserted) && inserted < row.quantity
    requires ApprovalStep(cfg, s, tid, tx, now).Some?
    ensures Inv(cfg, init, ApprovalStep(cfg, s, tid, tx, now).value)
  {
    assert TxOk(cfg, s, tx);
    var tx' := tx.(apc := Reviewing(row, now, inserted + 1));
    InsertStep(cfg, init, s, tid, NewLicense(cfg, TermsOf(tx.request, row, tx.admin, now), tx.draws(inserted)), tx');
  }

  lemma ApprovalBegins(cfg: Config, init: Db, s: State, tid: TxId, tx: Tx, clock: Time)
    requires Inv(cfg, init, s) && tid in s.txs && s.txs[tid] == tx && tx.Approval? && tx.apc.ReviewBegun?
    requires ApprovalStep(cfg, s, tid, tx, clock).Some?
    ensures Inv(cfg, init, ApprovalStep(cfg, s, tid, tx, clock).value)
  {
    ReviewStarts(cfg, init, s, tid, ApprovalStep(cfg, s, tid, tx, clock).value.txs[tid], tx.request);
  }

  lemma ApprovalKeepsInv(cfg: Config, init: Db, s: State, tid: TxId, tx: Tx, clock: Time)
    requires Inv(cfg, init, s) && tid in s.txs && s.txs[tid] == tx && tx.Approval?
    requires ApprovalStep(cfg, s, tid, tx, clock).Some?
    ensures Inv(cfg, init, ApprovalStep(cfg, s, tid, tx, clock).value)
  {
    assert TxOk(cfg, s, tx);
    var s' := ApprovalStep(cfg, s, tid, tx, clock).value;
    match tx.apc
    case ReviewBegun => ApprovalBegins(cfg, init, s, tid, tx, clock);
    case Reviewing(row, now, inserted) =>
      if inserted < row.quantity {
        ApprovalInserts(cfg, init, s, tid, tx, row, now, inserted);
      } else {
        MarkMove(cfg, init, s, tid, s'.txs[tid]);
      }
    case Marked(row, now) => ApprovalCommits(cfg, init, s, s', tid, tx, row, now);
  }

  lemma RejectionCommits(cfg: Config, init: Db, s: State, s': State, tid: TxId, tx: Tx, row: KeyRequest)
    requires Inv(cfg, init, s) && tid in s.txs && s.txs[tid] == tx && tx.Rejection? && tx.rpc.Marked? && tx.rpc.row == row
    requires s' == State(s.db.(requests := s.db.requests[tx.request := Reviewed(row, Rejected, tx.admin)]),
                         s.txs[tid := tx.(rpc := ReviewCommitted(|s.log|))],
                         s.log + [RejectRequest(tx.request, tx.admin)])
    ensures Inv(cfg, init, s')
  {
    assert TxOk(cfg, s, tx);
    CommitMove(cfg, init, s, s', tid, tx.(rpc := ReviewCommitted(|s.log|)), RejectRequest(tx.request, tx.admin));
  }

  lemma RejectionKeepsInv(cfg: Config, init: Db, s: State, tid: TxId, tx: Tx)
    requires Inv(cfg, init, s) && tid in s.txs && s.txs[tid] == tx && tx.Rejection?
    requires RejectionStep(cfg, s, tid, tx).Some?
    ensures Inv(cfg, init, RejectionStep(cfg, s, tid, tx).value)
  {
    assert TxOk(cfg, s, tx);
    var s' := RejectionStep(cfg, s, tid, tx).value;
    var tx' := s'.txs[tid];
    match tx.rpc
    case ReviewBegun =>
      ReviewStarts(cfg, init, s, tid, tx', tx.request);
    case Reviewing(_, _, _) =>
      if tx'.Failed? {
        IdleMove(cfg, init, s, tid, tx');
      } else {
        MarkMove(cfg, init, s, tid, tx');
      }
    case Marked(row, _) => RejectionCommits(cfg, init, s, s', tid, tx, row);
  }

  lemma GenerationTakesEffect(cfg: Config, db: Db, txn: Txn, rows: seq<NewRow>)
    requires txn.GenerateKeys? && txn.number <= cfg.maxBatch
    requires rows == NewRows(cfg, Direct(txn.terms), txn.draws, txn.number) && Insertable(db.users, db.licenses, rows)
    ensures Commit(cfg, db, txn).Ok?
    ensures Commit(cfg, db, txn).value.db == db.(licenses := WithRows(db.licenses, rows))
  {
    InsertableInserts(db.users, db.licenses, rows);
  }

  lemma GenerationCommits(cfg: Config, init: Db, s: State, s': State, tid: TxId, tx: Tx)
    requires Inv(cfg, init, s) && tid in s.txs && s.txs[tid] == tx && tx.Generation?
    requires tx.gpc == Generating(tx.number) && tx.number <= cfg.maxBatch
    requires s' == State(s.db.(licenses := WithRows(s.db.licenses, PendingRows(cfg, tx))),
                         s.txs[tid := tx.(gpc := GenerationCommitted(|s.log|))],
                         s.log + [GenerateKeys(tx.terms, tx.number, tx.draws)])
    ensures Inv(cfg, init, s')
  {
    var txn := GenerateKeys(tx.terms, tx.number, tx.draws);
    assert TxOk(cfg, s, tx);
    GenerationTakesEffect(cfg, s.db, txn, PendingRows(cfg, tx));
    CommitMove(cfg, init, s, s', tid, tx.(gpc := GenerationCommitted(|s.log|)), txn);
  }

  lemma OneMoreRow(cfg: Config, terms: Terms, draws: Draws, n: nat)
    ensures NewRows(cfg, terms, draws, n + 1) == NewRows(cfg, terms, draws, n) + [NewLicense(cfg, terms, draws(n))]
  {
  }

  lemma GenerationInserts(cfg: Config, init: Db, s: State, tid: TxId, tx: Tx, inserted: nat, tx': Tx, row: NewRow)
    requires Inv(cfg, init, s) && tid in s.txs && s.txs[tid] == tx && tx.Generation? && tx.gpc == Generating(inserted)
    requires inserted < tx.number <= cfg.maxBatch && tx' == tx.(gpc := Generating(inserted + 1))
    requires row == NewLicense(cfg, Direct(tx.terms), tx.draws(inserted)) && Insert(cfg, s, tid, row, tx').Some?
    ensures Inv(cfg, init, Insert(cfg, s, tid, row, tx').value)
  {
    assert TxOk(cfg, s, tx);
    OneMoreRow(cfg, Direct(tx.terms), tx.draws, inserted);
    InsertStep(cfg, init, s, tid, row, tx');
  }

  lemma GenerationKeepsInv(cfg: Config, init: Db, s: State, tid: TxId, tx: Tx, s': State)
    requires Inv(cfg, init, s) && tid in s.txs && s.txs[tid] == tx && tx.Generation?
    requires GenerationStep(cfg, s, tid, tx) == Some(s')
    ensures Inv(cfg, init, s')
  {
    var i := tx.gpc.inserted;
    if tx.number > cfg.maxBatch {
      IdleMove(cfg, init, s, tid, Failed(BadRequest));
    } else if i < tx.number {
      GenerationInserts(cfg, init, s, tid, tx, i, tx.(gpc := Generating(i + 1)), NewLicense(cfg, Direct(tx.terms), tx.draws(i)));
    } else {
      AllInserted(cfg, s, tx);
      GenerationCommits(cfg, init, s, s', tid, tx);
    }
  }

  lemma AllInserted(cfg: Config, s: State, tx: Tx)
    requires TxOk(cfg, s, tx) && tx.Generation? && tx.gpc.Generating? && tx.gpc.inserted >= tx.number
    ensures tx.gpc.inserted == tx.number
  {
  }

  // ----- the other transactions

  /** What they do to the tables a review or generation relies on. */
  lemma OtherFrame(cfg: Config, s: State, txn: Txn)
    requires Compatible(cfg, s, txn) && Commit(cfg, s.db, txn).Ok?
    ensures var after := Commit(cfg, s.db, txn).value.db;
            && after.licenses.Keys == s.db.licenses.Keys
            && (forall l :: l in after.licenses ==> after.licenses[l].keyHash == s.db.licenses[l].keyHash)
            && (forall u :: u in s.db.users && (txn.DeleteUser? ==> u != txn.id) ==> u in after.users)
  {
  }

  lemma OtherUndisturbed(cfg: Config, s: State, txn: Txn, t: TxId)
    requires Compatible(cfg, s, txn) && Commit(cfg, s.db, txn).Ok? && t in s.txs
    ensures Undisturbed(cfg, s, s.(db := Commit(cfg, s.db, txn).value.db, log := s.log + [txn]), s.txs[t])
  {
    OtherFrame(cfg, s, txn);
    var after, rows := Commit(cfg, s.db, txn).value.db, PendingRows(cfg, s.txs[t]);
    forall i | 0 <= i < |rows| && Admissible(s.db.users, s.db.licenses, rows[i])
      ensures Admissible(after.users, after.licenses, rows[i])
    {
      assert txn.DeleteUser? ==> !Names(rows[i].license, txn.id);
    }
    assert (s.log + [txn])[..|s.log|] == s.log;
  }

  lemma OtherKeepsInv(cfg: Config, init: Db, s: State, txn: Txn)
    requires Inv(cfg, init, s) && Compatible(cfg, s, txn) && Commit(cfg, s.db, txn).Ok?
    ensures Inv(cfg, init, s.(db := Commit(cfg, s.db, txn).value.db, log := s.log + [txn]))
  {
    var s' := s.(db := Commit(cfg, s.db, txn).value.db, log := s.log + [txn]);
    CommittedExtend(cfg, init, s.log, txn);
    forall t | t in s'.txs ensures TxOk(cfg, s', s'.txs[t]) {
      OtherUndisturbed(cfg, s, txn, t);
      StaysOk(cfg, s, s', s.txs[t]);
    }
  }

  // ----- all steps and runs

  lemma NextKeepsInv(cfg: Config, init: Db, s: State, a: Action)
    requires Inv(cfg, init, s) && Next(cfg, s, a).Some?
    ensures Inv(cfg, init, Next(cfg, s, a).value)
  {
    match a
    case Begin(tid, tx) => IdleMove(cfg, init, s, tid, tx);
    case Abort(tid) => IdleMove(cfg, init, s, tid, Dropped);
    case Other(txn) => OtherKeepsInv(cfg, init, s, txn);
    case Step(tid, clock) =>
      var tx := s.txs[tid];
      if tx.Approval? {
        ApprovalKeepsInv(cfg, init, s, tid, tx, clock);
      } else if tx.Rejection? {
        RejectionKeepsInv(cfg, init, s, tid, tx);
      } else {
        GenerationKeepsInv(cfg, init, s, tid, tx, Next(cfg, s, a).value);
      }
  }

  lemma {:induction false} RunKeepsInv(cfg: Config, init: State, actions: seq<Action>)
    requires Initial(init) && Run(cfg, init, actions).Some?
    ensures Inv(cfg, init.db, Run(cfg, init, actions).value)
  {
    if actions == [] {
    } else {
      RunKeepsInv(cfg, init, actions[..|actions| - 1]);
      NextKeepsInv(cfg, init.db, Run(cfg, init, actions[..|actions| - 1]).value, actions[|actions| - 1]);
    }
  }

  // ----- who wrote the log

  predicate IsIssuing(txn: Txn) {
    txn.ApproveRequest? || txn.RejectRequest? || txn.GenerateKeys?
  }

  ghost predicate HasAuthor(txs: map<TxId, Tx>, place: nat) {
    exists t :: t in txs && CommitPlace(txs[t]) == Some(place)
  }

  /** Every review and generation in the log was committed by a transaction of the run. */
  ghost predicate Authored(s: State) {
    forall i :: 0 <= i < |s.log| && IsIssuing(s.log[i]) ==> HasAuthor(s.txs, i)
  }

  /** Only `tid` moves; if the log grows, it is by the commit of `tid`. */
  ghost predicate OneCommit(s: State, s': State, tid: TxId) {
    && tid in s'.txs && s'.txs == s.txs[tid := s'.txs[tid]]
    && (tid in s.txs ==> CommitPlace(s.txs[tid]).None?)
    && (s'.log == s.log || (|s'.log| == |s.log| + 1 && s'.log[..|s.log|] == s.log && CommitPlace(s'.txs[tid]) == Some(|s.log|)))
  }

  lemma ApprovalIsOneCommit(cfg: Config, s: State, tid: TxId, tx: Tx, clock: Time)
    requires tid in s.txs && s.txs[tid] == tx && tx.Approval? && ApprovalStep(cfg, s, tid, tx, clock).Some?
    ensures OneCommit(s, ApprovalStep(cfg, s, tid, tx, clock).value, tid)
  {
  }

  lemma RejectionIsOneCommit(cfg: Config, s: State, tid: TxId, tx: Tx)
    requires tid in s.txs && s.txs[tid] == tx && tx.Rejection? && RejectionStep(cfg, s, tid, tx).Some?
    ensures OneCommit(s, RejectionStep(cfg, s, tid, tx).value, tid)
  {
  }

  lemma GenerationIsOneCommit(cfg: Config, s: State, tid: TxId, tx: Tx)
    requires tid in s.txs && s.txs[tid] == tx && tx.Generation? && GenerationStep(cfg, s, tid, tx).Some?
    ensures OneCommit(s, GenerationStep(cfg, s, tid, tx).value, tid)
  {
  }

  lemma OneCommitKeepsAuthors(s: State, s': State, tid: TxId)
    requires Authored(s) && OneCommit(s, s', tid)
    ensures Authored(s')
  {
    forall i | 0 <= i < |s'.log| && IsIssuing(s'.log[i]) ensures HasAuthor(s'.txs, i) {
      if i < |s.log| {
        assert s'.log[i] == s.log[i];
        var t :| t in s.txs && CommitPlace(s.txs[t]) == Some(i);
        assert t in s'.txs && CommitPlace(s'.txs[t]) == Some(i);
      }
    }
  }

  lemma NextKeepsAuthors(cfg: Config, s: State, a: Action, s': State)
    requires Authored(s) && Next(cfg, s, a) == Some(s')
    ensures Authored(s')
  {
    match a
    case Begin(tid, tx) => OneCommitKeepsAuthors(s, s', tid);
    case Abort(tid) => OneCommitKeepsAuthors(s, s', tid);
    case Step(tid, clock) =>
      if s.txs[tid].Approval? {
        ApprovalIsOneCommit(cfg, s, tid, s.txs[tid], clock);
      } else if s.txs[tid].Rejection? {
        RejectionIsOneCommit(cfg, s, tid, s.txs[tid]);
      } else {
        GenerationIsOneCommit(cfg, s, tid, s.txs[tid]);
      }
      OneCommitKeepsAuthors(s, s', tid);
    case Other(txn) =>
  }

  lemma {:induction false} RunKeepsAuthors(cfg: Config, init: State, actions: seq<Action>)
    requires Initial(init) && Run(cfg, init, actions).Some?
    ensures Authored(Run(cfg, init, actions).value)
  {
    if actions == [] {
    } else {
      var before := actions[..|actions| - 1];
      RunKeepsAuthors(cfg, init, before);
      NextKeepsAuthors(cfg, Run(cfg, init, before).value, actions[|actions| - 1], Run(cfg, init, actions).value);
    }
  }

  // ----- main results

  /** Every interleaving leaves the tables of a serial history: the log replays without an error to exactly the same
      tables, the committed transactions stand in it at different places, and every review and generation in it was
      committed, so that one that failed or was dropped half-way has left nothing behind. */
  lemma RunsLinearise(cfg: Config, init: State, actions: seq<Action>, end: State)
    requires Initial(init) && Run(cfg, init, actions) == Some(end)
    ensures Committed(cfg, init.db, end.log) && DbAfter(cfg, init.db, end.log) == end.db && Sound(end.db)
    ensures forall t :: t in end.txs ==> Logged(end.log, end.txs[t])
    ensures forall t, u :: t in end.txs && u in end.txs && t != u && CommitPlace(end.txs[t]).Some? ==>
        CommitPlace(end.txs[t]) != CommitPlace(end.txs[u])
    ensures Authored(end)
  {
    RunKeepsInv(cfg, init, actions);
    RunKeepsAuthors(cfg, init, actions);
    HistoryKeepsSound(cfg, init.db, end.log);
    forall t | t in end.txs ensures Logged(end.log, end.txs[t]) {
      assert TxOk(cfg, end, end.txs[t]);
    }
    forall t, u | t in end.txs && u in end.txs && t != u && CommitPlace(end.txs[t]).Some?
      ensures CommitPlace(end.txs[t]) != CommitPlace(end.txs[u])
    {
      assert Apart(cfg, end.txs[t], end.txs[u]);
    }
  }

  ghost predicate CommittedReview(tx: Tx, r: RequestId) {
    || (tx.Approval? && tx.request == r && tx.apc.ReviewCommitted?)
    || (tx.Rejection? && tx.request == r && tx.rpc.ReviewCommitted?)
  }

  /** Where a committed review stands in the log. */
  lemma ReviewPlace(log: seq<Txn>, tx: Tx, r: RequestId) returns (at: nat)
    requires Logged(log, tx) && CommittedReview(tx, r)
    ensures CommitPlace(tx) == Some(at) && at < |log| && IsReview(log[at], r)
    ensures tx.Approval? <==> IsApproval(log[at], r)
  {
    at := CommitPlace(tx).value;
  }

  lemma {:induction false} ReviewsAreCounted(h: seq<Txn>, r: RequestId, i: nat)
    requires i < |h| && IsReview(h[i], r)
    ensures CountReviews(h, r) >= 1
    ensures IsApproval(h[i], r) ==> CountApprovals(h, r) >= 1
  {
    if i < |h| - 1 {
      ReviewsAreCounted(h[..|h| - 1], r, i);
    }
  }

  lemma {:induction false} TwoReviewsAreCounted(h: seq<Txn>, r: RequestId, i: nat, j: nat)
    requires i < j < |h| && IsReview(h[i], r) && IsReview(h[j], r)
    ensures CountReviews(h, r) >= 2
  {
    if j < |h| - 1 {
      TwoReviewsAreCounted(h[..|h| - 1], r, i, j);
    } else {
      ReviewsAreCounted(h[..|h| - 1], r, i);
    }
  }

  lemma {:induction false} CountedApproval(h: seq<Txn>, r: RequestId) returns (i: nat)
    requires CountApprovals(h, r) >= 1
    ensures i < |h| && IsApproval(h[i], r)
  {
    if IsApproval(h[|h| - 1], r) {
      i := |h| - 1;
    } else {
      i := CountedApproval(h[..|h| - 1], r);
    }
  }

  lemma OneReviewInLog(h: seq<Txn>, r: RequestId, i: nat, j: nat)
    requires CountReviews(h, r) <= 1 && i < |h| && j < |h| && IsReview(h[i], r) && IsReview(h[j], r)
    ensures i == j
  {
    if i < j {
      TwoReviewsAreCounted(h, r, i, j);
    } else if j < i {
      TwoReviewsAreCounted(h, r, j, i);
    }
  }

  lemma RunReviewsOnce(cfg: Config, init: State, actions: seq<Action>, end: State, r: RequestId)
    requires Initial(init) && Run(cfg, init, actions) == Some(end)
    requires Unreviewed(init.db, r) && CreatedOnce(init.db, end.log, r)
    ensures CountReviews(end.log, r) <= 1
  {
    RunsLinearise(cfg, init, actions, end);
    IssuedExactlyOnce(cfg, init.db, end.log, r);
  }

  lemma PlacesDiffer(cfg: Config, init: State, actions: seq<Action>, end: State, t: TxId, u: TxId)
    requires Initial(init) && Run(cfg, init, actions) == Some(end) && t in end.txs && u in end.txs
    ensures Logged(end.log, end.txs[t]) && Logged(end.log, end.txs[u])
    ensures t != u && CommitPlace(end.txs[t]).Some? ==> CommitPlace(end.txs[t]) != CommitPlace(end.txs[u])
  {
    RunsLinearise(cfg, init, actions, end);
  }

  /** However approvals, rejections, failures and aborts interleave, at most one review of a request commits. */
  lemma OneReviewWins(cfg: Config, init: State, actions: seq<Action>, end: State, r: RequestId, t: TxId, u: TxId)
    requires Initial(init) && Run(cfg, init, actions) == Some(end)
    requires Unreviewed(init.db, r) && CreatedOnce(init.db, end.log, r)
    requires t in end.txs && u in end.txs && CommittedReview(end.txs[t], r) && CommittedReview(end.txs[u], r)
    ensures t == u
  {
    RunReviewsOnce(cfg, init, actions, end, r);
    PlacesDiffer(cfg, init, actions, end, t, u);
    var i := ReviewPlace(end.log, end.txs[t], r);
    var j := ReviewPlace(end.log, end.txs[u], r);
    OneReviewInLog(end.log, r, i, j);
  }

  ghost predicate ApprovalCommitted(txs: map<TxId, Tx>, r: RequestId) {
    exists t :: t in txs && txs[t].Approval? && CommittedReview(txs[t], r)
  }

  /** The licences issued for a request number its quantity once an approval of it has committed, and none before that
      or otherwise, whatever rounds of whatever loops have failed. */
  lemma RunsIssueExactlyOnce(cfg: Config, init: State, actions: seq<Action>, end: State, r: RequestId)
    requires Initial(init) && Run(cfg, init, actions) == Some(end)
    requires Unreviewed(init.db, r) && CreatedOnce(init.db, end.log, r)
    ensures var issued := |IssuedFor(end.db.licenses, r)|;
            if ApprovalCommitted(end.txs, r) then Requested(init.db, end.log, r) == Some(issued) else issued == 0
  {
    RunsLinearise(cfg, init, actions, end);
    IssuedExactlyOnce(cfg, init.db, end.log, r);
    if ApprovalCommitted(end.txs, r) {
      var t :| t in end.txs && end.txs[t].Approval? && CommittedReview(end.txs[t], r);
      var i := ReviewPlace(end.log, end.txs[t], r);
      ReviewsAreCounted(end.log, r, i);
    }
    if CountApprovals(end.log, r) >= 1 {
      var i := CountedApproval(end.log, r);
      assert HasAuthor(end.txs, i);
      var t :| t in end.txs && CommitPlace(end.txs[t]) == Some(i);
      assert Logged(end.log, end.txs[t]);
      assert CommittedReview(end.txs[t], r);
    }
  }

  // ----- failing and waiting

  lemma StaysTaken(licenses: map<LicenseId, License>, ids: set<LicenseId>, all: map<LicenseId, License>, row: NewRow)
    requires AddsOnly(licenses, ids, all) && IdOrHashTaken(licenses, row.id, row.license.keyHash)
    ensures IdOrHashTaken(all, row.id, row.license.keyHash)
  {
    if l :| l in licenses && licenses[l].keyHash == row.license.keyHash {
      assert all[l] == licenses[l];
    }
  }

  lemma ClashIsTaken(all: map<LicenseId, License>, rows: seq<NewRow>, row: NewRow)
    requires HoldsRows(all, rows) && ClashesWith(row, rows)
    ensures IdOrHashTaken(all, row.id, row.license.keyHash)
  {
    var i :| 0 <= i < |rows| && Clash(row, rows[i]);
    assert rows[i].id in all && all[rows[i].id] == rows[i].license;
  }

  lemma StaysUntaken(licenses: map<LicenseId, License>, rows: seq<NewRow>, row: NewRow)
    requires !IdOrHashTaken(licenses, row.id, row.license.keyHash) && !ClashesWith(row, rows)
    ensures !IdOrHashTaken(WithRows(licenses, rows), row.id, row.license.keyHash)
  {
    WithRowsKeys(licenses, rows);
    var all := WithRows(licenses, rows);
    forall l | l in all ensures l != row.id && all[l].keyHash != row.license.keyHash {
      if i :| 0 <= i < |rows| && rows[i].id == l && all[l] == rows[i].license {
        assert !Clash(row, rows[i]);
      }
    }
  }

  /** Together with the private rows a key is taken exactly when it is taken in the tables or clashes with one of them. */
  lemma TakenWithRows(users: map<UserId, User>, licenses: map<LicenseId, License>, rows: seq<NewRow>, row: NewRow)
    requires Insertable(users, licenses, rows)
    ensures IdOrHashTaken(WithRows(licenses, rows), row.id, row.license.keyHash)
        <==> IdOrHashTaken(licenses, row.id, row.license.keyHash) || ClashesWith(row, rows)
  {
    InsertableInserts(users, licenses, rows);
    BatchAdds(users, licenses, rows);
    if IdOrHashTaken(licenses, row.id, row.license.keyHash) {
      StaysTaken(licenses, RowIds(rows), WithRows(licenses, rows), row);
    } else if ClashesWith(row, rows) {
      ClashIsTaken(WithRows(licenses, rows), rows, row);
    } else {
      StaysUntaken(licenses, rows, row);
    }
  }

  /** A batch goes in exactly when every row fits into the tables as they are and no two rows clash. */
  lemma {:induction false} BatchSucceedsExactly(users: map<UserId, User>, licenses: map<LicenseId, License>, rows: seq<NewRow>)
    ensures InsertBatch(users, licenses, rows).Ok? <==> Insertable(users, licenses, rows)
  {
    if rows == [] {
    } else {
      var before, last := rows[..|rows| - 1], rows[|rows| - 1];
      BatchSucceedsExactly(users, licenses, before);
      if Insertable(users, licenses, rows) {
        InsertableInserts(users, licenses, rows);
      } else if InsertBatch(users, licenses, before).Ok? {
        InsertableInserts(users, licenses, before);
        TakenWithRows(users, licenses, before, last);
        OneMoreFits(users, licenses, rows, before, last);
      }
    }
  }

  lemma OneMoreFits(users: map<UserId, User>, licenses: map<LicenseId, License>, rows: seq<NewRow>, before: seq<NewRow>, last: NewRow)
    requires rows != [] && before == rows[..|rows| - 1] && last == rows[|rows| - 1] && Insertable(users, licenses, before)
    ensures Admissible(users, licenses, last) && !ClashesWith(last, before) ==> Insertable(users, licenses, rows)
  {
    assert rows == before + [last];
    if Admissible(users, licenses, last) && !ClashesWith(last, before) {
      InsertableOneMore(users, licenses, before, last);
    }
  }

  /** What the interleaved transaction would be, had it run alone. */
  function SerialTxn(tx: Tx, clock: Time): Txn
    requires tx.Approval? || tx.Rejection? || tx.Generation?
  {
    match tx
    case Approval(r, admin, draws, pc) => ApproveRequest(r, admin, if pc.Reviewing? then pc.now else clock, draws)
    case Rejection(r, admin, _) => RejectRequest(r, admin)
    case Generation(terms, number, draws, _) => GenerateKeys(terms, number, draws)
  }

  /** An insert of the loop that fails here fails the serial batch on the same tables, with the same error. */
  lemma FailingInsert(cfg: Config, s: State, tid: TxId, terms: Terms, draws: Draws, n: nat, i: nat, done: Tx)
    requires tid in s.txs && i < n && PendingRows(cfg, s.txs[tid]) == NewRows(cfg, terms, draws, i)
    requires Insertable(s.db.users, s.db.licenses, NewRows(cfg, terms, draws, i)) && !done.Failed?
    requires var step := Insert(cfg, s, tid, NewLicense(cfg, terms, draws(i)), done);
             step.Some? && step.value.txs[tid].Failed?
    ensures InsertBatch(s.db.users, s.db.licenses, NewRows(cfg, terms, draws, n))
         == Err(Insert(cfg, s, tid, NewLicense(cfg, terms, draws(i)), done).value.txs[tid].error)
  {
    var rows, row := NewRows(cfg, terms, draws, i), NewLicense(cfg, terms, draws(i));
    InsertableInserts(s.db.users, s.db.licenses, rows);
    TakenWithRows(s.db.users, s.db.licenses, rows, row);
    var mid := WithRows(s.db.licenses, rows);
    Backoffice.FailingRow(cfg, s.db.users, s.db.licenses, terms, draws, n, i, mid, InsertLicense(s.db.users, mid, row));
  }

  lemma ApprovalRefused(cfg: Config, s: State, tid: TxId, tx: Tx, clock: Time, s': State)
    requires tid in s.txs && s.txs[tid] == tx && tx.Approval? && tx.apc.ReviewBegun?
    requires ApprovalStep(cfg, s, tid, tx, clock) == Some(s') && tid in s'.txs && s'.txs[tid].Failed?
    ensures Commit(cfg, s.db, ApproveRequest(tx.request, tx.admin, clock, tx.draws)) == Err(s'.txs[tid].error)
  {
  }

  lemma ApprovalInsertFails(cfg: Config, s: State, tid: TxId, tx: Tx, row: KeyRequest, now: Time, i: nat, done: Tx, failed: Tx)
    requires tid in s.txs && s.txs[tid] == tx && tx.Approval? && tx.apc == Reviewing(row, now, i) && i < row.quantity
    requires TxOk(cfg, s, tx) && !done.Failed? && failed.Failed?
    requires Insert(cfg, s, tid, NewLicense(cfg, TermsOf(tx.request, row, tx.admin, now), tx.draws(i)), done)
          == Some(s.(txs := s.txs[tid := failed]))
    ensures Commit(cfg, s.db, ApproveRequest(tx.request, tx.admin, now, tx.draws)) == Err(failed.error)
  {
    var terms := TermsOf(tx.request, row, tx.admin, now);
    FailingInsert(cfg, s, tid, terms, tx.draws, row.quantity, i, done);
    Backoffice.ApprovalCommits(cfg, s.db, tx.request, row, tx.admin, now, tx.draws,
                               IssueBatch(cfg, s.db, terms, tx.draws, row.quantity));
  }

  lemma ApprovalFails(cfg: Config, s: State, tid: TxId, tx: Tx, clock: Time, s': State)
    requires tid in s.txs && s.txs[tid] == tx && tx.Approval? && TxOk(cfg, s, tx)
    requires ApprovalStep(cfg, s, tid, tx, clock) == Some(s') && tid in s'.txs && s'.txs[tid].Failed?
    ensures Commit(cfg, s.db, SerialTxn(tx, clock)) == Err(s'.txs[tid].error)
  {
    match tx.apc
    case ReviewBegun => ApprovalRefused(cfg, s, tid, tx, clock, s');
    case Reviewing(row, now, i) =>
      ApprovalInsertFails(cfg, s, tid, tx, row, now, i, tx.(apc := Reviewing(row, now, i + 1)), s'.txs[tid]);
  }

  lemma GenerationInsertFails(cfg: Config, s: State, tid: TxId, tx: Tx, i: nat, done: Tx, failed: Tx)
    requires tid in s.txs && s.txs[tid] == tx && tx.Generation? && tx.gpc == Generating(i) && i < tx.number <= cfg.maxBatch
    requires TxOk(cfg, s, tx) && !done.Failed? && failed.Failed?
    requires Insert(cfg, s, tid, NewLicense(cfg, Direct(tx.terms), tx.draws(i)), done) == Some(s.(txs := s.txs[tid := failed]))
    ensures Commit(cfg, s.db, GenerateKeys(tx.terms, tx.number, tx.draws)) == Err(failed.error)
  {
    FailingInsert(cfg, s, tid, Direct(tx.terms), tx.draws, tx.number, i, done);
    Backoffice.GenerateCommits(cfg, s.db, Direct(tx.terms), tx.number, tx.draws,
                               IssueBatch(cfg, s.db, Direct(tx.terms), tx.draws, tx.number));
    assert Direct(Direct(tx.terms)) == Direct(tx.terms);
  }

  lemma GenerationFails(cfg: Config, s: State, tid: TxId, tx: Tx, s': State)
    requires tid in s.txs && s.txs[tid] == tx && tx.Generation? && TxOk(cfg, s, tx)
    requires GenerationStep(cfg, s, tid, tx) == Some(s') && tid in s'.txs && s'.txs[tid].Failed?
    ensures Commit(cfg, s.db, SerialTxn(tx, 0)) == Err(s'.txs[tid].error)
  {
    if tx.number <= cfg.maxBatch {
      var i := tx.gpc.inserted;
      GenerationInsertFails(cfg, s, tid, tx, i, tx.(gpc := Generating(i + 1)), s'.txs[tid]);
    }
  }

  lemma RejectionFails(cfg: Config, s: State, tid: TxId, tx: Tx, s': State)
    requires tid in s.txs && s.txs[tid] == tx && tx.Rejection? && TxOk(cfg, s, tx)
    requires RejectionStep(cfg, s, tid, tx) == Some(s') && tid in s'.txs && s'.txs[tid].Failed?
    ensures Commit(cfg, s.db, SerialTxn(tx, 0)) == Err(s'.txs[tid].error)
  {
  }

  /** No transaction fails for having company: where a statement fails, the whole transaction run alone on the committed
      tables of that moment would fail with the same error. */
  lemma FailuresAreReal(cfg: Config, init: State, actions: seq<Action>, s: State, tid: TxId, clock: Time, s': State)
    requires Initial(init) && Run(cfg, init, actions) == Some(s)
    requires Next(cfg, s, Step(tid, clock)) == Some(s') && tid in s'.txs && s'.txs[tid].Failed?
    requires tid in s.txs && (s.txs[tid].Approval? || s.txs[tid].Rejection? || s.txs[tid].Generation?)
    ensures Commit(cfg, s.db, SerialTxn(s.txs[tid], clock)) == Err(s'.txs[tid].error)
  {
    RunKeepsInv(cfg, init, actions);
    assert TxOk(cfg, s, s.txs[tid]);
    match s.txs[tid]
    case Approval(_, _, _, _) => ApprovalFails(cfg, s, tid, s.txs[tid], clock, s');
    case Rejection(_, _, _) => RejectionFails(cfg, s, tid, s.txs[tid], s');
    case Generation(_, _, _, _) => GenerationFails(cfg, s, tid, s.txs[tid], s');
  }

  /** The row of the transaction's next insert. */
  function NextInsert(cfg: Config, tx: Tx): Option<NewRow> {
    match tx
    case Approval(r, admin, draws, Reviewing(row, now, i)) =>
      if i < row.quantity then Some(NewLicense(cfg, TermsOf(r, row, admin, now), draws(i))) else None
    case Generation(terms, number, draws, Generating(i)) =>
      if i < number then Some(NewLicense(cfg, Direct(terms), draws(i))) else None
    case _ => None
  }

  /** `other` holds the request row that `tx` is about to lock, or an uncommitted key that `tx` is about to insert. */
  ghost predicate Blocks(cfg: Config, tx: Tx, other: Tx) {
    || ((tx.Approval? || tx.Rejection?) && LockedRequest(other) == Some(tx.request))
    || (NextInsert(cfg, tx).Some? && ClashesWith(NextInsert(cfg, tx).value, PendingRows(cfg, other)))
  }

  /** An unfinished transaction waits only for another one's lock. */
  lemma WaitsForAnother(cfg: Config, s: State, tid: TxId, clock: Time) returns (other: TxId)
    requires tid in s.txs && Unfinished(s.txs[tid]) && Next(cfg, s, Step(tid, clock)).None?
    ensures other in s.txs && other != tid && Blocks(cfg, s.txs[tid], s.txs[other])
  {
    var tx := s.txs[tid];
    if NextInsert(cfg, tx).Some? {
      assert ClashesElsewhere(cfg, s, tid, NextInsert(cfg, tx).value);
      other :| other in s.txs && other != tid && ClashesWith(NextInsert(cfg, tx).value, PendingRows(cfg, s.txs[other]));
    } else {
      other :| other in s.txs && LockedRequest(s.txs[other]) == Some(tx.request);
    }
  }
}
