/**
 approve_key_request, reject_key_request and create_licenses_for_owner as interleaved transactions (PostgreSQL, READ
 COMMITTED): the request row is locked by its review, inserted licences stay private until the commit, an insert that
 meets another transaction's uncommitted key waits, and foreign keys pin the users that uncommitted rows refer to.
 Every other transaction of module Database takes effect in one step between them.
 */
module IssuanceProtocol {
  import opened Models
  import opened Database

  type TxId = nat

  /** `row` is the locked request, `inserted` counts loop rounds, `at` is the place of the commit in the log. */
  datatype ReviewPc =
    | ReviewBegun
    | Reviewing(row: KeyRequest, now: Time, inserted: nat)
    | Marked(row: KeyRequest, now: Time)
    | ReviewCommitted(at: nat)

  datatype GenerationPc = Generating(inserted: nat) | GenerationCommitted(at: nat)

  datatype Tx =
    | Approval(request: RequestId, admin: UserId, draws: Draws, apc: ReviewPc)
    | Rejection(request: RequestId, admin: UserId, rpc: ReviewPc)
    | Generation(terms: Terms, number: nat, draws: Draws, gpc: GenerationPc)
    | Failed(error: AppError)
    | Dropped

  datatype State = State(db: Db, txs: map<TxId, Tx>, log: seq<Txn>)

  datatype Action =
    | Begin(tid: TxId, tx: Tx)
    | Step(tid: TxId, now: Time)
    | Abort(tid: TxId)
    | Other(txn: Txn)

  // ----- locks and private rows

  /** The request row that a review holds FOR UPDATE. */
  function LockedRequest(tx: Tx): Option<RequestId> {
    match tx
    case Approval(r, _, _, pc) => if pc.Reviewing? || pc.Marked? then Some(r) else None
    case Rejection(r, _, pc) => if pc.Reviewing? || pc.Marked? then Some(r) else None
    case _ => None
  }

  predicate RequestFree(s: State, r: RequestId) {
    forall t :: t in s.txs ==> LockedRequest(s.txs[t]) != Some(r)
  }

  /** The licence rows a transaction has inserted and not committed. */
  function PendingRows(cfg: Config, tx: Tx): seq<NewRow> {
    match tx
    case Approval(r, admin, draws, Reviewing(row, now, inserted)) => NewRows(cfg, TermsOf(r, row, admin, now), draws, inserted)
    case Approval(r, admin, draws, Marked(row, now)) => NewRows(cfg, TermsOf(r, row, admin, now), draws, row.quantity)
    case Generation(terms, _, draws, Generating(inserted)) => NewRows(cfg, Direct(terms), draws, inserted)
    case _ => []
  }

  predicate Clash(a: NewRow, b: NewRow) {
    a.id == b.id || a.license.keyHash == b.license.keyHash
  }

  predicate ClashesWith(row: NewRow, rows: seq<NewRow>) {
    exists i :: 0 <= i < |rows| && Clash(row, rows[i])
  }

  predicate ClashesElsewhere(cfg: Config, s: State, tid: TxId, row: NewRow) {
    exists t :: t in s.txs && t != tid && ClashesWith(row, PendingRows(cfg, s.txs[t]))
  }

  /** Foreign keys of uncommitted rows share-lock the users they name. */
  predicate Pins(cfg: Config, tx: Tx, id: UserId) {
    || (exists i :: 0 <= i < |PendingRows(cfg, tx)| && Names(PendingRows(cfg, tx)[i].license, id))
    || (tx.Rejection? && tx.rpc.Marked? && tx.admin == id)
  }

  predicate Names(row: License, id: UserId) {
    row.owner == Some(id) || row.createdBy == Some(id)
  }

  /** The other transactions wait for the locks they need; only a deletion needs any that are held here. */
  predicate Compatible(cfg: Config, s: State, txn: Txn) {
    match txn
    case DeleteUser(id) =>
      forall t :: t in s.txs ==>
        && !Pins(cfg, s.txs[t], id)
        && (LockedRequest(s.txs[t]).Some? ==>
              var r := LockedRequest(s.txs[t]).value;
              r in s.db.requests ==> s.db.requests[r].reseller != id && s.db.requests[r].reviewedBy != Some(id))
    case ApproveRequest(_, _, _, _) => false
    case RejectRequest(_, _) => false
    case GenerateKeys(_, _, _) => false
    case _ => true
  }

  // ----- statements

  function Go(s: State, tid: TxId, tx: Tx): Option<State> {
    Some(s.(txs := s.txs[tid := tx]))
  }

  /** One INSERT: fail on a taken key or a missing user, wait for another transaction's uncommitted key. */
  function Insert(cfg: Config, s: State, tid: TxId, row: NewRow, done: Tx): Option<State>
    requires tid in s.txs
  {
    if IdOrHashTaken(s.db.licenses, row.id, row.license.keyHash) || ClashesWith(row, PendingRows(cfg, s.txs[tid])) then
      Go(s, tid, Failed(Conflict))
    else if ClashesElsewhere(cfg, s, tid, row) then None
    else if !UserExists(s.db.users, row.license.owner) || !UserExists(s.db.users, row.license.createdBy) then
      Go(s, tid, Failed(Internal))
    else Go(s, tid, done)
  }

  /** The private rows become visible. */
  function WithRows(licenses: map<LicenseId, License>, rows: seq<NewRow>): map<LicenseId, License> {
    if rows == [] then licenses
    else WithRows(licenses, rows[..|rows| - 1])[rows[|rows| - 1].id := rows[|rows| - 1].license]
  }

  function CommitReview(s: State, tid: TxId, r: RequestId, licenses: map<LicenseId, License>, request: KeyRequest,
                        done: Tx, txn: Txn): Option<State>
  {
    Some(State(Db(s.db.users, licenses, s.db.requests[r := request]), s.txs[tid := done], s.log + [txn]))
  }

  function ApprovalStep(cfg: Config, s: State, tid: TxId, tx: Tx, clock: Time): Option<State>
    requires tx.Approval? && tid in s.txs
  {
    match tx.apc
    case ReviewBegun =>  // SELECT ... FOR UPDATE and the checks; the expiry clock is read here
      if tx.request !in s.db.requests then Go(s, tid, Failed(NotFound))
      else if !RequestFree(s, tx.request) then None
      else if s.db.requests[tx.request].status != Pending then Go(s, tid, Failed(Conflict))
      else if s.db.requests[tx.request].quantity > cfg.maxBatch then Go(s, tid, Failed(BadRequest))
      else Go(s, tid, tx.(apc := Reviewing(s.db.requests[tx.request], clock, 0)))
    case Reviewing(row, now, inserted) =>
      if inserted < row.quantity then  // the next round of the loop
        Insert(cfg, s, tid, NewLicense(cfg, TermsOf(tx.request, row, tx.admin, now), tx.draws(inserted)),
               tx.(apc := Reviewing(row, now, inserted + 1)))
      else Go(s, tid, tx.(apc := Marked(row, now)))  // UPDATE license_requests
    case Marked(row, now) =>  // COMMIT
      CommitReview(s, tid, tx.request, WithRows(s.db.licenses, PendingRows(cfg, tx)), Reviewed(row, Approved, tx.admin),
                   tx.(apc := ReviewCommitted(|s.log|)), ApproveRequest(tx.request, tx.admin, now, tx.draws))
    case ReviewCommitted(_) => None
  }

  function RejectionStep(cfg: Config, s: State, tid: TxId, tx: Tx): Option<State>
    requires tx.Rejection? && tid in s.txs
  {
    match tx.rpc
    case ReviewBegun =>
      if tx.request !in s.db.requests then Go(s, tid, Failed(NotFound))
      else if !RequestFree(s, tx.request) then None
      else if s.db.requests[tx.request].status != Pending then Go(s, tid, Failed(Conflict))
      else Go(s, tid, tx.(rpc := Reviewing(s.db.requests[tx.request], 0, 0)))
    case Reviewing(row, _, _) =>  // UPDATE license_requests
      if tx.admin !in s.db.users then Go(s, tid, Failed(Internal)) else Go(s, tid, tx.(rpc := Marked(row, 0)))
    case Marked(row, _) =>  // COMMIT
      CommitReview(s, tid, tx.request, s.db.licenses, Reviewed(row, Rejected, tx.admin),
                   tx.(rpc := ReviewCommitted(|s.log|)), RejectRequest(tx.request, tx.admin))
    case ReviewCommitted(_) => None
  }

  function GenerationStep(cfg: Config, s: State, tid: TxId, tx: Tx): Option<State>
    requires tx.Generation? && tid in s.txs
  {
    match tx.gpc
    case Generating(inserted) =>
      if tx.number > cfg.maxBatch then Go(s, tid, Failed(BadRequest))
      else if inserted < tx.number then
        Insert(cfg, s, tid, NewLicense(cfg, Direct(tx.terms), tx.draws(inserted)), tx.(gpc := Generating(inserted + 1)))
      else  // COMMIT
        Some(State(s.db.(licenses := WithRows(s.db.licenses, PendingRows(cfg, tx))),
                   s.txs[tid := tx.(gpc := GenerationCommitted(|s.log|))],
                   s.log + [GenerateKeys(tx.terms, tx.number, tx.draws)]))
    case GenerationCommitted(_) => None
  }

  predicate Starting(tx: Tx) {
    match tx
    case Approval(_, _, _, pc) => pc.ReviewBegun?
    case Rejection(_, _, pc) => pc.ReviewBegun?
    case Generation(_, _, _, pc) => pc == Generating(0)
    case _ => false
  }

  predicate Unfinished(tx: Tx) {
    match tx
    case Approval(_, _, _, pc) => !pc.ReviewCommitted?
    case Rejection(_, _, pc) => !pc.ReviewCommitted?
    case Generation(_, _, _, pc) => !pc.GenerationCommitted?
    case _ => false
  }

  function Next(cfg: Config, s: State, a: Action): Option<State> {
    match a
    case Begin(tid, tx) => if tid !in s.txs && Starting(tx) then Go(s, tid, tx) else None
    case Step(tid, clock) =>
      if tid !in s.txs then None
      else
        (match s.txs[tid]
         case Approval(_, _, _, _) => ApprovalStep(cfg, s, tid, s.txs[tid], clock)
         case Rejection(_, _, _) => RejectionStep(cfg, s, tid, s.txs[tid])
         case Generation(_, _, _, _) => GenerationStep(cfg, s, tid, s.txs[tid])
         case _ => None)
    case Abort(tid) => if tid in s.txs && Unfinished(s.txs[tid]) then Go(s, tid, Dropped) else None
    case Other(txn) =>
      if Compatible(cfg, s, txn) && Commit(cfg, s.db, txn).Ok? then
        Some(s.(db := Commit(cfg, s.db, txn).value.db, log := s.log + [txn]))
      else None
  }

  ghost function Run(cfg: Config, s: State, actions: seq<Action>): Option<State> {
    if actions == [] then Some(s)
    else
      var before := Run(cfg, s, actions[..|actions| - 1]);
      if before.None? then None else Next(cfg, before.value, actions[|actions| - 1])
  }
}
