/**
 verify_license, release_license and the single-key status update as interleaved transactions on PostgreSQL
 (READ COMMITTED, FOR UPDATE row locks). Every step is one statement together with the clock reading it uses.
 A transaction's locks follow from its program counter: it holds them from the statement that takes them until it
 commits or is dropped. Writes stay private until the commit.
 */
module SeatProtocol {
  import opened Models
  import opened Leases
  import opened SeatHistory

  type TxId = nat

  /** Program points of `verify_license`. `l` is the locked licence, `e` the expiry reading; `isNew` tells the
      insert path from the update path; `n` is the recount, `at` its clock and `place` how far the log had got. */
  datatype VerifyPc =
    | Begun
    | Locked(l: LicenseId)
    | Unexpired(l: LicenseId, e: Time)
    | RowLocked(l: LicenseId, e: Time)
    | RowStale(l: LicenseId, e: Time)
    | RowAbsent(l: LicenseId, e: Time)
    | Granted(l: LicenseId, e: Time, isNew: bool)
    | Written(l: LicenseId, e: Time, isNew: bool, stamp: Time)
    | Recounted(l: LicenseId, e: Time, isNew: bool, stamp: Time, n: nat, at: Time, place: nat)
    | Refused(held: Option<LicenseId>, row: Option<Slot>, decision: Decision)
    | Answered(decision: Decision, reported: Option<nat>)

  datatype ReleasePc =
    | ReleaseBegun
    | ClockRead(readAt: Time)
    | ReleaseWritten(slot: Slot, readAt: Time)
    | ReleaseAnswered(released: bool)

  datatype StatusPc = StatusBegun | StatusWritten | StatusAnswered(found: bool)

  /** `owner` is None for an administrator and the reseller's id for `set_my_license_status`. */
  datatype Tx =
    | Verify(keyHash: Digest, device: Digest, vpc: VerifyPc)
    | ReleaseTx(keyHash: Digest, device: Digest, rpc: ReleasePc)
    | SetStatus(l: LicenseId, owner: Option<UserId>, status: LicenseStatus, spc: StatusPc)
    | Dropped

  datatype State = State(clock: Time, tables: Tables, txs: map<TxId, Tx>, log: seq<Event>)

  datatype Action =
    | Tick(to: Time)
    | Begin(tid: TxId, tx: Tx)
    | Step(tid: TxId, stamp: Time)
    | Abort(tid: TxId)
    | Administer(licenses: Licenses)

  // ----- locks

  function HeldLicense(tx: Tx): Option<LicenseId> {
    match tx
    case Verify(_, _, pc) =>
      (match pc
       case Begun => None
       case Answered(_, _) => None
       case Refused(held, _, _) => held
       case _ => Some(pc.l))
    case SetStatus(l, _, _, StatusWritten) => Some(l)
    case _ => None
  }

  function HeldRow(tx: Tx): Option<Slot> {
    match tx
    case Verify(_, device, pc) =>
      (match pc
       case RowLocked(l, _) => Some(Slot(l, device))
       case RowStale(l, _) => Some(Slot(l, device))
       case Granted(l, _, isNew) => if isNew then None else Some(Slot(l, device))
       case Written(l, _, isNew, _) => if isNew then None else Some(Slot(l, device))
       case Recounted(l, _, isNew, _, _, _, _) => if isNew then None else Some(Slot(l, device))
       case Refused(_, row, _) => row
       case _ => None)
    case ReleaseTx(_, _, ReleaseWritten(slot, _)) => Some(slot)
    case _ => None
  }

  predicate LicenseFree(s: State, l: LicenseId) {
    forall t :: t in s.txs ==> HeldLicense(s.txs[t]) != Some(l)
  }

  predicate RowFree(s: State, slot: Slot) {
    forall t :: t in s.txs ==> HeldRow(s.txs[t]) != Some(slot)
  }

  predicate Finished(tx: Tx) {
    match tx
    case Verify(_, _, pc) => pc.Answered?
    case ReleaseTx(_, _, pc) => pc.ReleaseAnswered?
    case SetStatus(_, _, _, pc) => pc.StatusAnswered?
    case Dropped => true
  }

  predicate Starting(tx: Tx) {
    match tx
    case Verify(_, _, pc) => pc.Begun?
    case ReleaseTx(_, _, pc) => pc.ReleaseBegun?
    case SetStatus(_, _, _, pc) => pc.StatusBegun?
    case Dropped => false
  }

  // ----- one statement of one transaction; None while it has to wait or its statement fails

  function Go(s: State, tid: TxId, tx: Tx): Option<State> {
    Some(s.(txs := s.txs[tid := tx]))
  }

  /** The answer is fixed here; the transaction still has to commit before it is sent. */
  function Refuse(s: State, tid: TxId, tx: Tx, e: Time, held: Option<LicenseId>, row: Option<Slot>, d: Decision): Option<State>
    requires tx.Verify?
  {
    Some(s.(txs := s.txs[tid := tx.(vpc := Refused(held, row, d))],
            log := s.log + [Decided(tid, tx.keyHash, tx.device, e, s.clock, s.clock, d)]))
  }

  ghost function VerifyStep(window: nat, s: State, tid: TxId, tx: Tx, stamp: Time): Option<State>
    requires tx.Verify?
  {
    match tx.vpc
    case Begun =>  // SELECT ... WHERE key_hash = $1 FOR UPDATE, status check
      var found := Lookup(s.tables.licenses, tx.keyHash);
      if found.None? then Refuse(s, tid, tx, s.clock, None, None, Deny(InvalidKey, None, None))
      else if !LicenseFree(s, found.value) then None
      else if s.tables.licenses[found.value].status != Active then
        Refuse(s, tid, tx, s.clock, found, None, Deny(LicenseNotActive, found, None))
      else Go(s, tid, tx.(vpc := Locked(found.value)))
    case Locked(l) =>  // expiry check
      if l in s.tables.licenses && Expired(s.tables.licenses[l], s.clock) then
        Refuse(s, tid, tx, s.clock, Some(l), None, Deny(LicenseExpired, Some(l), None))
      else Go(s, tid, tx.(vpc := Unexpired(l, s.clock)))
    case Unexpired(l, e) =>  // SELECT the activation FOR UPDATE
      var slot := Slot(l, tx.device);
      if slot !in s.tables.leases then Go(s, tid, tx.(vpc := RowAbsent(l, e)))
      else if !RowFree(s, slot) then None
      else Go(s, tid, tx.(vpc := RowLocked(l, e)))
    case RowLocked(l, e) =>  // revoked? seen within the window?
      var slot := Slot(l, tx.device);
      if slot !in s.tables.leases then None
      else if s.tables.leases[slot].revokedAt.Some? then
        Refuse(s, tid, tx, e, Some(l), Some(slot), Deny(DeviceRevoked, Some(l), None))
      else if s.tables.leases[slot].lastSeen > s.clock - window then Go(s, tid, tx.(vpc := Granted(l, e, false)))
      else Go(s, tid, tx.(vpc := RowStale(l, e)))
    case RowStale(l, e) =>  // active_device_count_excluding
      var slot := Slot(l, tx.device);
      var others := OthersLive(window, s.tables.leases, slot, s.clock);
      if l !in s.tables.licenses then None
      else if others >= s.tables.licenses[l].maxDevices then
        Refuse(s, tid, tx, e, Some(l), Some(slot), Deny(DeviceLimitReached, Some(l), Some(others)))
      else Go(s, tid, tx.(vpc := Granted(l, e, false)))
    case RowAbsent(l, e) =>  // active_device_count
      var all := LiveCount(window, s.tables.leases, l, s.clock);
      if l !in s.tables.licenses then None
      else if all >= s.tables.licenses[l].maxDevices then
        Refuse(s, tid, tx, e, Some(l), None, Deny(DeviceLimitReached, Some(l), Some(all)))
      else Go(s, tid, tx.(vpc := Granted(l, e, true)))
    case Granted(l, e, isNew) =>  // UPDATE or INSERT the activation, UPDATE last_verified_at
      if isNew && Slot(l, tx.device) in s.tables.leases then None
      else Go(s, tid, tx.(vpc := Written(l, e, isNew, stamp)))
    case Written(l, e, isNew, stamp') =>  // recount, seeing the own write
      if l !in s.tables.licenses then None
      else
        var seen := Renew(s.tables, Slot(l, tx.device), stamp');
        var n := LiveCount(window, seen.leases, l, s.clock);
        Go(s, tid, tx.(vpc := Recounted(l, e, isNew, stamp', n, s.clock, |s.log|)))
    case Recounted(l, e, isNew, stamp', n, _, _) =>  // COMMIT
      if l !in s.tables.licenses then None
      else
        var slot := Slot(l, tx.device);
        Some(State(s.clock, Renew(s.tables, slot, stamp'),
                   s.txs[tid := tx.(vpc := Answered(Grant(slot), Some(n)))],
                   s.log + [Decided(tid, tx.keyHash, tx.device, e, s.clock, stamp', Grant(slot))]))
    case Refused(_, _, d) => Go(s, tid, tx.(vpc := Answered(d, if d.Deny? then d.counted else None)))  // COMMIT
    case Answered(_, _) => None
  }

  ghost function ReleaseStep(window: nat, s: State, tid: TxId, tx: Tx): Option<State>
    requires tx.ReleaseTx?
  {
    match tx.rpc
    case ReleaseBegun => Go(s, tid, tx.(rpc := ClockRead(s.clock)))  // let stale_at = Utc::now() - ...
    case ClockRead(readAt) =>  // UPDATE ... WHERE id IN (SELECT ...)
      var found := Lookup(s.tables.licenses, tx.keyHash);
      if found.None? || !Releasable(s.tables, Slot(found.value, tx.device)) then
        Some(s.(txs := s.txs[tid := tx.(rpc := ReleaseAnswered(false))],
                log := s.log + [ReleaseMissed(tid, tx.keyHash, tx.device, s.clock)]))
      else if !RowFree(s, Slot(found.value, tx.device)) then None
      else Go(s, tid, tx.(rpc := ReleaseWritten(Slot(found.value, tx.device), readAt)))
    case ReleaseWritten(slot, readAt) =>  // autocommit
      if !Releasable(s.tables, slot) then None
      else
        Some(State(s.clock, Release(window, s.tables, slot, readAt),
                   s.txs[tid := tx.(rpc := ReleaseAnswered(true))],
                   s.log + [Released(tid, tx.keyHash, slot, readAt, s.clock)]))
    case ReleaseAnswered(_) => None
  }

  function StatusStep(s: State, tid: TxId, tx: Tx): Option<State>
    requires tx.SetStatus?
  {
    match tx.spc
    case StatusBegun =>  // UPDATE license_keys SET status = ... WHERE id = ... [AND owner_id = ...]
      if tx.l !in s.tables.licenses || (tx.owner.Some? && s.tables.licenses[tx.l].owner != tx.owner) then
        Some(s.(txs := s.txs[tid := tx.(spc := StatusAnswered(false))],
                log := s.log + [StatusMissed(tid, tx.l, tx.owner, s.clock)]))
      else if !LicenseFree(s, tx.l) then None
      else Go(s, tid, tx.(spc := StatusWritten))
    case StatusWritten =>  // autocommit
      if tx.l !in s.tables.licenses then None
      else
        Some(State(s.clock, s.tables.(licenses := WithStatus(s.tables.licenses, tx.l, tx.status)),
                   s.txs[tid := tx.(spc := StatusAnswered(true))],
                   s.log + [StatusSet(tid, tx.l, tx.owner, tx.status, s.clock)]))
    case StatusAnswered(_) => None
  }

  ghost function TxStep(window: nat, s: State, tid: TxId, stamp: Time): Option<State> {
    if tid !in s.txs then None
    else
      var tx := s.txs[tid];
      match tx
      case Verify(_, _, _) => VerifyStep(window, s, tid, tx, stamp)
      case ReleaseTx(_, _, _) => ReleaseStep(window, s, tid, tx)
      case SetStatus(_, _, _, _) => StatusStep(s, tid, tx)
      case Dropped => None
  }

  /** Locked licence rows stay as they are while someone else's statement rewrites the table. */
  ghost predicate LeavesLockedAlone(s: State, licenses: Licenses) {
    forall t :: t in s.txs && HeldLicense(s.txs[t]).Some? ==>
      var l := HeldLicense(s.txs[t]).value;
      l in s.tables.licenses ==> l in licenses && licenses[l] == s.tables.licenses[l]
  }

  ghost function Next(window: nat, s: State, a: Action): Option<State> {
    match a
    case Tick(to) => if s.clock <= to then Some(s.(clock := to)) else None
    case Begin(tid, tx) => if tid !in s.txs && Starting(tx) then Go(s, tid, tx) else None
    case Step(tid, stamp) => TxStep(window, s, tid, stamp)
    case Abort(tid) => if tid in s.txs && !Finished(s.txs[tid]) then Go(s, tid, Dropped) else None
    case Administer(licenses) =>
      if Evolves(s.tables.licenses, licenses) && LeavesLockedAlone(s, licenses) then
        Some(s.(tables := s.tables.(licenses := licenses), log := s.log + [LicensesChanged(licenses, s.clock)]))
      else None
  }

  ghost function Run(window: nat, s: State, actions: seq<Action>): Option<State> {
    if actions == [] then Some(s)
    else
      var before := Run(window, s, actions[..|actions| - 1]);
      if before.None? then None else Next(window, before.value, actions[|actions| - 1])
  }

  /** Any tables within the rules, no transaction under way. */
  ghost predicate Initial(window: nat, s: State) {
    Good(window, s.tables, s.clock) && s.txs == map[] && s.log == []
  }
}
