/**
 Every action of the seat protocol keeps the invariant of module SeatSafety, so every interleaved run does.
 */
module SeatSteps {
  import opened Models
  import opened Leases
  import opened SeatHistory
  import opened SeatProtocol
  import opened SeatSafety

  lemma LookupIs(licenses: Licenses, keyHash: Digest, l: LicenseId)
    requires UniqueHashes(licenses) && l in licenses && licenses[l].keyHash == keyHash
    ensures Lookup(licenses, keyHash) == Some(l)
  {
  }

  /** Past the checks, the rule is the comparison of the others with the limit. */
  lemma RulePastChecks(window: nat, s: State, keyHash: Digest, device: Digest, l: LicenseId, e: Time)
    requires UniqueHashes(s.tables.licenses) && UnexpiredOk(s, keyHash, l, e)
    requires Slot(l, device) in s.tables.leases ==> s.tables.leases[Slot(l, device)].revokedAt.None?
    ensures var others := OthersLive(window, s.tables.leases, Slot(l, device), s.clock);
            LeaseRule(window, s.tables, keyHash, device, e, s.clock)
            == (if others >= s.tables.licenses[l].maxDevices then Deny(DeviceLimitReached, Some(l), Some(others))
                else Grant(Slot(l, device)))
  {
    LookupIs(s.tables.licenses, keyHash, l);
  }

  lemma RuleOnRevoked(window: nat, s: State, keyHash: Digest, device: Digest, l: LicenseId, e: Time)
    requires UniqueHashes(s.tables.licenses) && UnexpiredOk(s, keyHash, l, e)
    requires Slot(l, device) in s.tables.leases && s.tables.leases[Slot(l, device)].revokedAt.Some?
    ensures LeaseRule(window, s.tables, keyHash, device, e, s.clock) == Deny(DeviceRevoked, Some(l), None)
  {
    LookupIs(s.tables.licenses, keyHash, l);
  }

  /** A live device's own seat is one of at most `max_devices`. */
  lemma LiveHasRoom(window: nat, s: State, slot: Slot)
    requires SeatBound(window, s.tables, s.clock) && slot.license in s.tables.licenses
    requires slot in s.tables.leases && Live(window, s.tables.leases[slot], s.clock)
    ensures RoomOk(window, s, slot, false)
  {
    OthersOfLive(window, s.tables.leases, slot, s.clock);
  }

  // ----- verify_license, statement by statement

  ghost predicate Before(window: nat, init: Tables, start: Time, s: State, tid: TxId, stamp: Time) {
    Inv(window, init, start, s) && tid in s.txs && s.txs[tid].Verify? && VerifyStep(window, s, tid, s.txs[tid], stamp).Some?
  }

  lemma LockStep(window: nat, init: Tables, start: Time, s: State, tid: TxId, stamp: Time)
    requires Before(window, init, start, s, tid, stamp) && s.txs[tid].vpc.Begun?
    ensures Inv(window, init, start, VerifyStep(window, s, tid, s.txs[tid], stamp).value)
  {
    var tx := s.txs[tid];
    var found := Lookup(s.tables.licenses, tx.keyHash);
    if found.None? {
      RefusalStep(window, init, start, s, tid, s.clock, None, None, Deny(InvalidKey, None, None));
    } else if s.tables.licenses[found.value].status != Active {
      RefusalStep(window, init, start, s, tid, s.clock, found, None, Deny(LicenseNotActive, found, None));
    } else {
      QuietStep(window, init, start, s, tid, tx.(vpc := Locked(found.value)));
    }
  }

  lemma RuleOnExpired(window: nat, s: State, keyHash: Digest, device: Digest, l: LicenseId)
    requires UniqueHashes(s.tables.licenses) && LicenseOk(s, keyHash, l) && Expired(s.tables.licenses[l], s.clock)
    ensures LeaseRule(window, s.tables, keyHash, device, s.clock, s.clock) == Deny(LicenseExpired, Some(l), None)
  {
    LookupIs(s.tables.licenses, keyHash, l);
  }

  lemma ExpiryStep(window: nat, init: Tables, start: Time, s: State, tid: TxId, stamp: Time)
    requires Before(window, init, start, s, tid, stamp) && s.txs[tid].vpc.Locked?
    ensures Inv(window, init, start, VerifyStep(window, s, tid, s.txs[tid], stamp).value)
  {
    var tx := s.txs[tid];
    var l := tx.vpc.l;
    assert TxOk(window, s, tx);
    if Expired(s.tables.licenses[l], s.clock) {
      UniqueInRun(window, init, start, s);
      RuleOnExpired(window, s, tx.keyHash, tx.device, l);
      KeepsItsLocks(s, tid, Some(l), None, Deny(LicenseExpired, Some(l), None));
      RefusalStep(window, init, start, s, tid, s.clock, Some(l), None, Deny(LicenseExpired, Some(l), None));
    } else {
      QuietStep(window, init, start, s, tid, tx.(vpc := Unexpired(l, s.clock)));
    }
  }

  lemma ReadRowStep(window: nat, init: Tables, start: Time, s: State, tid: TxId, stamp: Time)
    requires Before(window, init, start, s, tid, stamp) && s.txs[tid].vpc.Unexpired?
    ensures Inv(window, init, start, VerifyStep(window, s, tid, s.txs[tid], stamp).value)
  {
    var tx := s.txs[tid];
    assert TxOk(window, s, tx);
    var l, e := tx.vpc.l, tx.vpc.e;
    if Slot(l, tx.device) in s.tables.leases {
      QuietStep(window, init, start, s, tid, tx.(vpc := RowLocked(l, e)));
    } else {
      QuietStep(window, init, start, s, tid, tx.(vpc := RowAbsent(l, e)));
    }
  }

  lemma KeepsItsLocks(s: State, tid: TxId, held: Option<LicenseId>, row: Option<Slot>, d: Decision)
    requires tid in s.txs && s.txs[tid].Verify?
    requires held == HeldLicense(s.txs[tid]) && row == HeldRow(s.txs[tid])
    ensures LocksFairly(s, tid, s.txs[tid].(vpc := Refused(held, row, d)))
  {
  }

  lemma UniqueInRun(window: nat, init: Tables, start: Time, s: State)
    requires LogOk(window, init, start, s)
    ensures UniqueHashes(s.tables.licenses)
  {
    InvGood(window, init, start, s);
  }

  lemma RevokedStep(window: nat, init: Tables, start: Time, s: State, tid: TxId, tx: Tx, slot: Slot, d: Decision)
    requires Inv(window, init, start, s) && tid in s.txs && s.txs[tid] == tx && tx.Verify? && tx.vpc.RowLocked?
    requires slot == Slot(tx.vpc.l, tx.device) && d == Deny(DeviceRevoked, Some(slot.license), None)
    requires slot in s.tables.leases && s.tables.leases[slot].revokedAt.Some?
    ensures Inv(window, init, start, Refuse(s, tid, tx, tx.vpc.e, Some(slot.license), Some(slot), d).value)
  {
    assert TxOk(window, s, tx);
    UniqueInRun(window, init, start, s);
    RuleOnRevoked(window, s, tx.keyHash, tx.device, slot.license, tx.vpc.e);
    KeepsItsLocks(s, tid, Some(slot.license), Some(slot), d);
    RefusalStep(window, init, start, s, tid, tx.vpc.e, Some(slot.license), Some(slot), d);
  }

  /** Here the handler skips the count: the seat bound itself says that the others leave room. */
  lemma LivenessStep(window: nat, init: Tables, start: Time, s: State, tid: TxId, stamp: Time)
    requires Before(window, init, start, s, tid, stamp) && s.txs[tid].vpc.RowLocked?
    ensures Inv(window, init, start, VerifyStep(window, s, tid, s.txs[tid], stamp).value)
  {
    var tx := s.txs[tid];
    assert TxOk(window, s, tx);
    var l, e := tx.vpc.l, tx.vpc.e;
    var slot := Slot(l, tx.device);
    InvGood(window, init, start, s);
    if s.tables.leases[slot].revokedAt.Some? {
      RevokedStep(window, init, start, s, tid, tx, slot, Deny(DeviceRevoked, Some(l), None));
    } else if s.tables.leases[slot].lastSeen > s.clock - window {
      LiveHasRoom(window, s, slot);
      QuietStep(window, init, start, s, tid, tx.(vpc := Granted(l, e, false)));
    } else {
      QuietStep(window, init, start, s, tid, tx.(vpc := RowStale(l, e)));
    }
  }

  /** What a transaction knows and holds when it counts. */
  lemma BeforeCount(window: nat, s: State, tx: Tx, slot: Slot)
    requires TxOk(window, s, tx) && tx.Verify? && (tx.vpc.RowStale? || tx.vpc.RowAbsent?)
    requires slot == Slot(tx.vpc.l, tx.device)
    ensures UnexpiredOk(s, tx.keyHash, slot.license, tx.vpc.e) && tx.vpc.e <= s.clock
    ensures slot in s.tables.leases ==> s.tables.leases[slot].revokedAt.None?
    ensures HeldLicense(tx) == Some(slot.license) && HeldRow(tx) == if tx.vpc.RowStale? then Some(slot) else None
  {
  }

  /** At a count: no seat is left. */
  lemma NoSeatLeft(window: nat, init: Tables, start: Time, s: State, tid: TxId, tx: Tx, slot: Slot, row: Option<Slot>)
    requires Inv(window, init, start, s) && tid in s.txs && s.txs[tid] == tx && tx.Verify?
    requires (tx.vpc.RowStale? && row == Some(slot)) || (tx.vpc.RowAbsent? && row == None)
    requires slot == Slot(tx.vpc.l, tx.device) && slot.license in s.tables.licenses
    requires OthersLive(window, s.tables.leases, slot, s.clock) >= s.tables.licenses[slot.license].maxDevices
    ensures var d := Deny(DeviceLimitReached, Some(slot.license), Some(OthersLive(window, s.tables.leases, slot, s.clock)));
            Inv(window, init, start, Refuse(s, tid, tx, tx.vpc.e, Some(slot.license), row, d).value)
  {
    BeforeCount(window, s, tx, slot);
    UniqueInRun(window, init, start, s);
    RulePastChecks(window, s, tx.keyHash, tx.device, slot.license, tx.vpc.e);
    var d := Deny(DeviceLimitReached, Some(slot.license), Some(OthersLive(window, s.tables.leases, slot, s.clock)));
    KeepsItsLocks(s, tid, Some(slot.license), row, d);
    RefusalStep(window, init, start, s, tid, tx.vpc.e, Some(slot.license), row, d);
  }

  /** At a count: a seat is left. */
  lemma SeatLeft(window: nat, init: Tables, start: Time, s: State, tid: TxId, tx: Tx, slot: Slot)
    requires Inv(window, init, start, s) && tid in s.txs && s.txs[tid] == tx && tx.Verify?
    requires tx.vpc.RowStale? || tx.vpc.RowAbsent?
    requires slot == Slot(tx.vpc.l, tx.device) && slot.license in s.tables.licenses
    requires OthersLive(window, s.tables.leases, slot, s.clock) < s.tables.licenses[slot.license].maxDevices
    ensures Inv(window, init, start,
                s.(txs := s.txs[tid := tx.(vpc := Granted(slot.license, tx.vpc.e, tx.vpc.RowAbsent?))]))
  {
    assert TxOk(window, s, tx);
    QuietStep(window, init, start, s, tid, tx.(vpc := Granted(slot.license, tx.vpc.e, tx.vpc.RowAbsent?)));
  }

  lemma CountOthersStep(window: nat, init: Tables, start: Time, s: State, tid: TxId, stamp: Time)
    requires Before(window, init, start, s, tid, stamp) && s.txs[tid].vpc.RowStale?
    ensures Inv(window, init, start, VerifyStep(window, s, tid, s.txs[tid], stamp).value)
  {
    var tx := s.txs[tid];
    var slot := Slot(tx.vpc.l, tx.device);
    if OthersLive(window, s.tables.leases, slot, s.clock) >= s.tables.licenses[slot.license].maxDevices {
      NoSeatLeft(window, init, start, s, tid, tx, slot, Some(slot));
    } else {
      SeatLeft(window, init, start, s, tid, tx, slot);
    }
  }

  lemma CountAllStep(window: nat, init: Tables, start: Time, s: State, tid: TxId, stamp: Time)
    requires Before(window, init, start, s, tid, stamp) && s.txs[tid].vpc.RowAbsent?
    ensures Inv(window, init, start, VerifyStep(window, s, tid, s.txs[tid], stamp).value)
  {
    var tx := s.txs[tid];
    var slot := Slot(tx.vpc.l, tx.device);
    assert TxOk(window, s, tx);
    OthersOfIdle(window, s.tables.leases, slot, s.clock);
    if OthersLive(window, s.tables.leases, slot, s.clock) >= s.tables.licenses[slot.license].maxDevices {
      NoSeatLeft(window, init, start, s, tid, tx, slot, None);
    } else {
      SeatLeft(window, init, start, s, tid, tx, slot);
    }
  }

  lemma WriteStep(window: nat, init: Tables, start: Time, s: State, tid: TxId, stamp: Time)
    requires Before(window, init, start, s, tid, stamp) && s.txs[tid].vpc.Granted?
    ensures Inv(window, init, start, VerifyStep(window, s, tid, s.txs[tid], stamp).value)
  {
    var tx, pc := s.txs[tid], s.txs[tid].vpc;
    assert TxOk(window, s, tx);
    QuietStep(window, init, start, s, tid, tx.(vpc := Written(pc.l, pc.e, pc.isNew, stamp)));
  }

  lemma RecountWithinLimit(window: nat, s: State, slot: Slot, stamp: Time)
    requires slot.license in s.tables.licenses
    requires OthersLive(window, s.tables.leases, slot, s.clock) < s.tables.licenses[slot.license].maxDevices
    ensures LiveCount(window, Renew(s.tables, slot, stamp).leases, slot.license, s.clock)
         <= s.tables.licenses[slot.license].maxDevices
  {
    RenewSeats(window, s.tables, slot, stamp, slot.license, s.clock);
  }

  /** With room left, the recount finds at most the limit. */
  lemma RecountStep(window: nat, init: Tables, start: Time, s: State, tid: TxId, stamp: Time)
    requires Before(window, init, start, s, tid, stamp) && s.txs[tid].vpc.Written?
    ensures Inv(window, init, start, VerifyStep(window, s, tid, s.txs[tid], stamp).value)
  {
    var tx, pc := s.txs[tid], s.txs[tid].vpc;
    assert TxOk(window, s, tx);
    var slot := Slot(pc.l, tx.device);
    RecountWithinLimit(window, s, slot, pc.stamp);
    var n := LiveCount(window, Renew(s.tables, slot, pc.stamp).leases, pc.l, s.clock);
    QuietStep(window, init, start, s, tid, tx.(vpc := Recounted(pc.l, pc.e, pc.isNew, pc.stamp, n, s.clock, |s.log|)));
  }

  lemma GrantedRowIsFree(window: nat, s: State, tid: TxId, t: TxId, slot: Slot)
    requires Exclusive(s.txs) && tid in s.txs && t in s.txs && t != tid
    requires TxOk(window, s, s.txs[tid]) && TxOk(window, s, s.txs[t])
    requires s.txs[tid].Verify? && s.txs[tid].vpc.Recounted? && slot == Slot(s.txs[tid].vpc.l, s.txs[tid].device)
    ensures HeldLicense(s.txs[t]) != Some(slot.license) && HeldRow(s.txs[t]) != Some(slot)
  {
    var tx, other := s.txs[tid], s.txs[t];
    assert HeldLicense(tx) == Some(slot.license);
    assert if tx.vpc.isNew then slot !in s.tables.leases else HeldRow(tx) == Some(slot);
    assert other.Verify? && HeldRow(other) == Some(slot) ==> HeldLicense(other) == Some(slot.license);
  }

  /** A committed grant leaves every other transaction's view alone: they hold other licences and other rows. */
  lemma GrantUndisturbed(window: nat, s: State, s': State, tid: TxId, t: TxId, slot: Slot, stamp: Time)
    requires Exclusive(s.txs) && tid in s.txs && t in s.txs && t != tid
    requires TxOk(window, s, s.txs[tid]) && TxOk(window, s, s.txs[t])
    requires s.txs[tid].Verify? && s.txs[tid].vpc.Recounted? && slot == Slot(s.txs[tid].vpc.l, s.txs[tid].device)
    requires s'.clock == s.clock && slot.license in s.tables.licenses && s'.tables == Renew(s.tables, slot, stamp)
    ensures Undisturbed(window, s, s', s.txs[t])
  {
    GrantedRowIsFree(window, s, tid, t, slot);
    if HeldLicense(s.txs[t]).Some? {
      RenewSeats(window, s.tables, slot, stamp, HeldLicense(s.txs[t]).value, s.clock);
    }
  }

  lemma CommitGrantStep(window: nat, init: Tables, start: Time, s: State, tid: TxId, stamp: Time)
    requires Before(window, init, start, s, tid, stamp) && s.txs[tid].vpc.Recounted?
    ensures Inv(window, init, start, VerifyStep(window, s, tid, s.txs[tid], stamp).value)
  {
    var tx := s.txs[tid];
    assert TxOk(window, s, tx);
    var pc := tx.vpc;
    var slot := Slot(pc.l, tx.device);
    var s' := VerifyStep(window, s, tid, tx, stamp).value;
    var ev := Decided(tid, tx.keyHash, tx.device, pc.e, s.clock, pc.stamp, Grant(slot));
    InvGood(window, init, start, s);
    RulePastChecks(window, s, tx.keyHash, tx.device, pc.l, pc.e);
    forall t | t in s.txs && t != tid ensures Undisturbed(window, s, s', s.txs[t]) {
      GrantUndisturbed(window, s, s', tid, t, slot, pc.stamp);
    }
    var tx' := tx.(vpc := Answered(Grant(slot), Some(pc.n)));
    OpenIsUnanswered(s, tid);
    AnsweredNow(s.log, tid, tx', ev);
    EffectiveStep(window, init, start, s, s', tid, tx', ev);
  }

  lemma CommitRefusalStep(window: nat, init: Tables, start: Time, s: State, tid: TxId, stamp: Time)
    requires Before(window, init, start, s, tid, stamp) && s.txs[tid].vpc.Refused?
    ensures Inv(window, init, start, VerifyStep(window, s, tid, s.txs[tid], stamp).value)
  {
    var tx := s.txs[tid];
    var d := tx.vpc.decision;
    QuietStep(window, init, start, s, tid, tx.(vpc := Answered(d, if d.Deny? then d.counted else None)));
  }

  lemma VerifyKeepsInv(window: nat, init: Tables, start: Time, s: State, tid: TxId, stamp: Time)
    requires Before(window, init, start, s, tid, stamp)
    ensures Inv(window, init, start, VerifyStep(window, s, tid, s.txs[tid], stamp).value)
  {
    match s.txs[tid].vpc
    case Begun => LockStep(window, init, start, s, tid, stamp);
    case Locked(_) => ExpiryStep(window, init, start, s, tid, stamp);
    case Unexpired(_, _) => ReadRowStep(window, init, start, s, tid, stamp);
    case RowLocked(_, _) => LivenessStep(window, init, start, s, tid, stamp);
    case RowStale(_, _) => CountOthersStep(window, init, start, s, tid, stamp);
    case RowAbsent(_, _) => CountAllStep(window, init, start, s, tid, stamp);
    case Granted(_, _, _) => WriteStep(window, init, start, s, tid, stamp);
    case Written(_, _, _, _) => RecountStep(window, init, start, s, tid, stamp);
    case Recounted(_, _, _, _, _, _, _) => CommitGrantStep(window, init, start, s, tid, stamp);
    case Refused(_, _, _) => CommitRefusalStep(window, init, start, s, tid, stamp);
    case Answered(_, _) =>
  }

  // ----- the other transactions

  lemma ReleaseOnlyFrees(window: nat, t: Tables, slot: Slot, readAt: Time, own: Slot, now: Time)
    requires Releasable(t, slot) && readAt <= now
    ensures OthersLive(window, Release(window, t, slot, readAt).leases, own, now) <= OthersLive(window, t.leases, own, now)
  {
    ReleaseSeats(window, t, slot, readAt, own.license, now);
    SubsetSize(LiveSlots(window, Release(window, t, slot, readAt).leases, own.license, now) - {own},
               LiveSlots(window, t.leases, own.license, now) - {own});
  }

  lemma ReleaseUndisturbed(window: nat, s: State, s': State, tid: TxId, t: TxId)
    requires Exclusive(s.txs) && tid in s.txs && t in s.txs && t != tid && TxOk(window, s, s.txs[t])
    requires s.txs[tid].ReleaseTx? && s.txs[tid].rpc.ReleaseWritten? && TxOk(window, s, s.txs[tid])
    requires s'.clock == s.clock
    requires s'.tables == Release(window, s.tables, s.txs[tid].rpc.slot, s.txs[tid].rpc.readAt)
    ensures Undisturbed(window, s, s', s.txs[t])
  {
    var slot, readAt := s.txs[tid].rpc.slot, s.txs[tid].rpc.readAt;
    var other := s.txs[t];
    assert HeldRow(s.txs[tid]) == Some(slot);
    if other.Verify? && HeldLicense(other).Some? {
      var own := Slot(HeldLicense(other).value, other.device);
      ReleaseOnlyFrees(window, s.tables, slot, readAt, own, s.clock);
    }
  }

  lemma ReleaseCommits(window: nat, init: Tables, start: Time, s: State, s': State, tid: TxId, tx: Tx,
                       slot: Slot, readAt: Time)
    requires Inv(window, init, start, s) && tid in s.txs && s.txs[tid] == tx && tx.ReleaseTx?
    requires tx.rpc == ReleaseWritten(slot, readAt) && Releasable(s.tables, slot)
    requires s' == State(s.clock, Release(window, s.tables, slot, readAt),
                         s.txs[tid := tx.(rpc := ReleaseAnswered(true))],
                         s.log + [Released(tid, tx.keyHash, slot, readAt, s.clock)])
    ensures Inv(window, init, start, s')
  {
    var tx', e := tx.(rpc := ReleaseAnswered(true)), Released(tid, tx.keyHash, slot, readAt, s.clock);
    assert TxOk(window, s, tx);
    UniqueInRun(window, init, start, s);
    LookupIs(s.tables.licenses, tx.keyHash, slot.license);
    OpenIsUnanswered(s, tid);
    AnsweredNow(s.log, tid, tx', e);
    forall t | t in s.txs && t != tid ensures Undisturbed(window, s, s', s.txs[t]) {
      ReleaseUndisturbed(window, s, s', tid, t);
    }
    EffectiveStep(window, init, start, s, s', tid, tx', e);
  }

  lemma ReleaseKeepsInv(window: nat, init: Tables, start: Time, s: State, tid: TxId)
    requires Inv(window, init, start, s) && tid in s.txs && s.txs[tid].ReleaseTx?
    requires ReleaseStep(window, s, tid, s.txs[tid]).Some?
    ensures Inv(window, init, start, ReleaseStep(window, s, tid, s.txs[tid]).value)
  {
    var tx := s.txs[tid];
    assert TxOk(window, s, tx);
    var s' := ReleaseStep(window, s, tid, tx).value;
    match tx.rpc
    case ReleaseBegun => QuietStep(window, init, start, s, tid, tx.(rpc := ClockRead(s.clock)));
    case ClockRead(readAt) =>
      if s'.txs[tid].rpc.ReleaseWritten? {
        QuietStep(window, init, start, s, tid, s'.txs[tid]);
      } else {
        MissedStep(window, init, start, s, s', tid, tx.(rpc := ReleaseAnswered(false)),
                   ReleaseMissed(tid, tx.keyHash, tx.device, s.clock));
      }
    case ReleaseWritten(slot, readAt) => ReleaseCommits(window, init, start, s, s', tid, tx, slot, readAt);
    case ReleaseAnswered(_) =>
  }

  /** An answer that finds no row to change. */
  lemma MissedStep(window: nat, init: Tables, start: Time, s: State, s': State, tid: TxId, tx': Tx, e: Event)
    requires Inv(window, init, start, s) && tid in s.txs && !s.txs[tid].Dropped? && !HasAnswer(s.txs[tid])
    requires (e.ReleaseMissed? && tx'.ReleaseTx?) || (e.StatusMissed? && tx'.SetStatus?)
    requires IsAnswerOf(e, tid) && Matches(e, tx') && EventOk(window, s.tables, e) && e.at == s.clock
    requires s' == s.(txs := s.txs[tid := tx'], log := s.log + [e])
    ensures Inv(window, init, start, s')
  {
    OpenIsUnanswered(s, tid);
    AnsweredNow(s.log, tid, tx', e);
    NobodyDisturbed(window, s, s');
    EffectiveStep(window, init, start, s, s', tid, tx', e);
  }

  lemma StatusUndisturbed(window: nat, s: State, s': State, tid: TxId, t: TxId, l: LicenseId, status: LicenseStatus)
    requires Exclusive(s.txs) && tid in s.txs && t in s.txs && t != tid
    requires HeldLicense(s.txs[tid]) == Some(l) && l in s.tables.licenses && s'.clock == s.clock
    requires s'.tables == s.tables.(licenses := WithStatus(s.tables.licenses, l, status))
    ensures Undisturbed(window, s, s', s.txs[t])
  {
    assert HeldLicense(s.txs[tid]) != HeldLicense(s.txs[t]);
  }

  lemma StatusCommits(window: nat, init: Tables, start: Time, s: State, s': State, tid: TxId, tx: Tx)
    requires Inv(window, init, start, s) && tid in s.txs && s.txs[tid] == tx && tx.SetStatus? && tx.spc.StatusWritten?
    requires MaySet(s.tables.licenses, tx.l, tx.owner)
    requires s' == State(s.clock, s.tables.(licenses := WithStatus(s.tables.licenses, tx.l, tx.status)),
                         s.txs[tid := tx.(spc := StatusAnswered(true))],
                         s.log + [StatusSet(tid, tx.l, tx.owner, tx.status, s.clock)])
    ensures Inv(window, init, start, s')
  {
    var tx', e := tx.(spc := StatusAnswered(true)), StatusSet(tid, tx.l, tx.owner, tx.status, s.clock);
    OpenIsUnanswered(s, tid);
    AnsweredNow(s.log, tid, tx', e);
    assert HeldLicense(tx) == Some(tx.l);
    forall t | t in s.txs && t != tid ensures Undisturbed(window, s, s', s.txs[t]) {
      StatusUndisturbed(window, s, s', tid, t, tx.l, tx.status);
    }
    EffectiveStep(window, init, start, s, s', tid, tx', e);
  }

  lemma StatusKeepsInv(window: nat, init: Tables, start: Time, s: State, tid: TxId)
    requires Inv(window, init, start, s) && tid in s.txs && s.txs[tid].SetStatus?
    requires StatusStep(s, tid, s.txs[tid]).Some?
    ensures Inv(window, init, start, StatusStep(s, tid, s.txs[tid]).value)
  {
    var tx := s.txs[tid];
    assert TxOk(window, s, tx);
    var s' := StatusStep(s, tid, tx).value;
    match tx.spc
    case StatusBegun =>
      if MaySet(s.tables.licenses, tx.l, tx.owner) {
        QuietStep(window, init, start, s, tid, tx.(spc := StatusWritten));
      } else {
        MissedStep(window, init, start, s, s', tid, tx.(spc := StatusAnswered(false)),
                   StatusMissed(tid, tx.l, tx.owner, s.clock));
      }
    case StatusWritten => StatusCommits(window, init, start, s, s', tid, tx);
    case StatusAnswered(_) =>
  }

  lemma TickKeepsInv(window: nat, init: Tables, start: Time, s: State, to: Time)
    requires Inv(window, init, start, s) && s.clock <= to
    ensures Inv(window, init, start, s.(clock := to))
  {
    var s' := s.(clock := to);
    forall t | t in s'.txs ensures TxOk(window, s', s'.txs[t]) {
      var tx := s.txs[t];
      if tx.Verify? && HeldLicense(tx).Some? {
        OthersOnlyFall(window, s.tables.leases, Slot(HeldLicense(tx).value, tx.device), s.clock, to);
      }
      StaysOk(window, s, s', tx);
    }
  }

  lemma FaithWithChange(log: seq<Event>, txs: map<TxId, Tx>, e: Event)
    requires Faithful(log, txs) && e.LicensesChanged?
    ensures Faithful(log + [e], txs)
  {
  }

  lemma ChangeUndisturbed(window: nat, s: State, s': State, t: TxId)
    requires Evolves(s.tables.licenses, s'.tables.licenses) && LeavesLockedAlone(s, s'.tables.licenses)
    requires s'.clock == s.clock && s'.tables.leases == s.tables.leases && t in s.txs
    ensures Undisturbed(window, s, s', s.txs[t])
  {
  }

  lemma AdministerKeepsInv(window: nat, init: Tables, start: Time, s: State, licenses: Licenses)
    requires Inv(window, init, start, s)
    requires Evolves(s.tables.licenses, licenses) && LeavesLockedAlone(s, licenses)
    ensures Inv(window, init, start, Next(window, s, Administer(licenses)).value)
  {
    var s', e := Next(window, s, Administer(licenses)).value, LicensesChanged(licenses, s.clock);
    LegalExtend(window, init, start, s.log, e);
    FaithWithChange(s.log, s.txs, e);
    forall t | t in s'.txs ensures TxOk(window, s', s'.txs[t]) && Logged(s'.log, t, s'.txs[t]) {
      ChangeUndisturbed(window, s, s', t);
      StaysOk(window, s, s', s.txs[t]);
      LoggedGrows(s.log, e, t, s.txs[t]);
    }
  }

  lemma NewcomerIsFair(s: State, tid: TxId, tx: Tx)
    requires Exclusive(s.txs) && Faithful(s.log, s.txs) && tid !in s.txs && Starting(tx)
    ensures Exclusive(s.txs[tid := tx]) && Faithful(s.log, s.txs[tid := tx])
  {
    assert HeldLicense(tx).None? && HeldRow(tx).None?;
  }

  lemma OthersWithNewcomer(window: nat, s: State, tid: TxId, tx: Tx)
    requires TxsOk(window, s) && tid !in s.txs && Starting(tx)
    ensures TxsOk(window, s.(txs := s.txs[tid := tx]))
  {
    var s' := s.(txs := s.txs[tid := tx]);
    NobodyDisturbed(window, s, s');
    forall t | t in s.txs ensures TxOk(window, s', s.txs[t]) {
      StaysOk(window, s, s', s.txs[t]);
    }
  }

  lemma BeginKeepsInv(window: nat, init: Tables, start: Time, s: State, tid: TxId, tx: Tx)
    requires Inv(window, init, start, s) && tid !in s.txs && Starting(tx)
    ensures Inv(window, init, start, s.(txs := s.txs[tid := tx]))
  {
    NewcomerIsFair(s, tid, tx);
    OthersWithNewcomer(window, s, tid, tx);
  }

  /** What every step of the protocol keeps. */
  lemma NextKeepsInv(window: nat, init: Tables, start: Time, s: State, a: Action)
    requires Inv(window, init, start, s) && Next(window, s, a).Some?
    ensures Inv(window, init, start, Next(window, s, a).value)
  {
    match a
    case Tick(to) => TickKeepsInv(window, init, start, s, to);
    case Begin(tid, tx) => BeginKeepsInv(window, init, start, s, tid, tx);
    case Step(tid, stamp) =>
      match s.txs[tid] {
        case Verify(_, _, _) => VerifyKeepsInv(window, init, start, s, tid, stamp);
        case ReleaseTx(_, _, _) => ReleaseKeepsInv(window, init, start, s, tid);
        case SetStatus(_, _, _, _) => StatusKeepsInv(window, init, start, s, tid);
        case Dropped =>
      }
    case Abort(tid) => QuietStep(window, init, start, s, tid, Dropped);
    case Administer(licenses) => AdministerKeepsInv(window, init, start, s, licenses);
  }

  lemma {:induction false} RunKeepsInv(window: nat, s: State, actions: seq<Action>)
    requires Initial(window, s) && Run(window, s, actions).Some?
    ensures Inv(window, s.tables, s.clock, Run(window, s, actions).value)
  {
    if actions == [] {
    } else {
      var before := actions[..|actions| - 1];
      RunKeepsInv(window, s, before);
      NextKeepsInv(window, s.tables, s.clock, Run(window, s, before).value, actions[|actions| - 1]);
    }
  }
}
