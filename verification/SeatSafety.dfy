/**
 The invariant of the interleaved seat protocol, kept by every action: the log is a legal history that replays to
 the current tables, locks are exclusive, and what a transaction has read is still true while it holds its locks.
 */
module SeatSafety {
  import opened Models
  import opened Leases
  import opened SeatHistory
  import opened SeatProtocol

  // ----- what a transaction may rely on

  ghost predicate LicenseOk(s: State, keyHash: Digest, l: LicenseId) {
    l in s.tables.licenses && s.tables.licenses[l].keyHash == keyHash && s.tables.licenses[l].status == Active
  }

  ghost predicate UnexpiredOk(s: State, keyHash: Digest, l: LicenseId, e: Time) {
    LicenseOk(s, keyHash, l) && e <= s.clock && !Expired(s.tables.licenses[l], e)
  }

  /** There is room for the device: either way to write its row keeps the bound. */
  ghost predicate RoomOk(window: nat, s: State, slot: Slot, isNew: bool) {
    && slot.license in s.tables.licenses
    && (isNew <==> slot !in s.tables.leases)
    && (slot in s.tables.leases ==> s.tables.leases[slot].revokedAt.None?)
    && OthersLive(window, s.tables.leases, slot, s.clock) < s.tables.licenses[slot.license].maxDevices
  }

  /** A limit refusal names an existing licence and reports exactly its limit; no other refusal reports a number. */
  ghost predicate RefusalOk(s: State, d: Decision)
    requires d.Deny?
  {
    if d.code == DeviceLimitReached then
      && d.license.Some? && d.license.value in s.tables.licenses
      && d.counted == Some(s.tables.licenses[d.license.value].maxDevices as nat)
    else d.counted == None
  }

  /** An allowed answer reports at most the limit. */
  ghost predicate GrantOk(s: State, l: LicenseId, reported: Option<nat>) {
    l in s.tables.licenses && reported.Some? && reported.value <= s.tables.licenses[l].maxDevices
  }

  ghost predicate VerifyOk(window: nat, s: State, keyHash: Digest, device: Digest, pc: VerifyPc) {
    match pc
    case Begun => true
    case Locked(l) => LicenseOk(s, keyHash, l)
    case Unexpired(l, e) => UnexpiredOk(s, keyHash, l, e)
    case RowLocked(l, e) => UnexpiredOk(s, keyHash, l, e) && Slot(l, device) in s.tables.leases
    case RowStale(l, e) =>
      && UnexpiredOk(s, keyHash, l, e) && Releasable(s.tables, Slot(l, device))
      && s.tables.leases[Slot(l, device)].lastSeen <= s.clock - window
    case RowAbsent(l, e) => UnexpiredOk(s, keyHash, l, e) && Slot(l, device) !in s.tables.leases
    case Granted(l, e, isNew) => UnexpiredOk(s, keyHash, l, e) && RoomOk(window, s, Slot(l, device), isNew)
    case Written(l, e, isNew, _) => UnexpiredOk(s, keyHash, l, e) && RoomOk(window, s, Slot(l, device), isNew)
    case Recounted(l, e, isNew, _, n, _, _) =>
      && UnexpiredOk(s, keyHash, l, e) && RoomOk(window, s, Slot(l, device), isNew)
      && n <= s.tables.licenses[l].maxDevices
    case Refused(held, row, d) =>
      && d.Deny? && RefusalOk(s, d) && (held.Some? ==> held.value in s.tables.licenses)
      && (row.Some? ==> held == Some(row.value.license))
    case Answered(d, reported) =>
      if d.Deny? then RefusalOk(s, d) && reported == d.counted else GrantOk(s, d.slot.license, reported)
  }

  ghost predicate TxOk(window: nat, s: State, tx: Tx) {
    match tx
    case Verify(keyHash, device, pc) => VerifyOk(window, s, keyHash, device, pc)
    case ReleaseTx(_, _, ClockRead(readAt)) => readAt <= s.clock
    case ReleaseTx(keyHash, device, ReleaseWritten(slot, readAt)) =>
      && readAt <= s.clock && Releasable(s.tables, slot) && slot.device == device
      && slot.license in s.tables.licenses && s.tables.licenses[slot.license].keyHash == keyHash
    case SetStatus(l, owner, _, StatusWritten) => MaySet(s.tables.licenses, l, owner)
    case _ => true
  }

  /** The event is what this transaction has answered, or the refusal it was dropped with, unsent. */
  predicate Matches(e: Event, tx: Tx) {
    match tx
    case Verify(keyHash, device, Refused(_, _, d)) =>
      e.Decided? && e.keyHash == keyHash && e.device == device && e.decision == d
    case Verify(keyHash, device, Answered(d, _)) =>
      e.Decided? && e.keyHash == keyHash && e.device == device && e.decision == d
    case ReleaseTx(keyHash, device, ReleaseAnswered(released)) =>
      if released then e.Released? && e.keyHash == keyHash && e.slot.device == device
      else e.ReleaseMissed? && e.keyHash == keyHash && e.device == device
    case SetStatus(l, owner, status, StatusAnswered(found)) =>
      if found then e.StatusSet? && e.l == l && e.owner == owner && e.status == status
      else e.StatusMissed? && e.l == l && e.owner == owner
    case Dropped => e.Decided? && e.decision.Deny?
    case _ => false
  }

  /** The answer is fixed. */
  predicate HasAnswer(tx: Tx) {
    match tx
    case Verify(_, _, pc) => pc.Refused? || pc.Answered?
    case ReleaseTx(_, _, pc) => pc.ReleaseAnswered?
    case SetStatus(_, _, _, pc) => pc.StatusAnswered?
    case Dropped => false
  }

  predicate IsAnswerOf(e: Event, tid: TxId) {
    !e.LicensesChanged? && e.tx == tid
  }

  /** A transaction that has fixed its answer has it in the log. */
  ghost predicate Logged(log: seq<Event>, tid: TxId, tx: Tx) {
    HasAnswer(tx) ==> exists i :: 0 <= i < |log| && IsAnswerOf(log[i], tid) && Matches(log[i], tx)
  }

  /** Every logged answer belongs to one transaction, which gave no other. */
  ghost predicate Faithful(log: seq<Event>, txs: map<TxId, Tx>) {
    && (forall i :: 0 <= i < |log| && !log[i].LicensesChanged? ==> log[i].tx in txs && Matches(log[i], txs[log[i].tx]))
    && (forall i, j :: 0 <= i < j < |log| && !log[i].LicensesChanged? ==> !IsAnswerOf(log[j], log[i].tx))
  }

  ghost predicate Unanswered(log: seq<Event>, tid: TxId) {
    forall i :: 0 <= i < |log| ==> !IsAnswerOf(log[i], tid)
  }

  ghost predicate Exclusive(txs: map<TxId, Tx>) {
    forall t, u :: t in txs && u in txs && t != u ==>
      && (HeldLicense(txs[t]).Some? ==> HeldLicense(txs[t]) != HeldLicense(txs[u]))
      && (HeldRow(txs[t]).Some? ==> HeldRow(txs[t]) != HeldRow(txs[u]))
  }

  ghost predicate LogOk(window: nat, init: Tables, start: Time, s: State) {
    && Good(window, init, start)
    && Legal(window, init, start, s.log)
    && Replay(window, init, s.log) == s.tables
    && EndTime(start, s.log) <= s.clock
  }

  ghost predicate TxsOk(window: nat, s: State) {
    forall t :: t in s.txs ==> TxOk(window, s, s.txs[t]) && Logged(s.log, t, s.txs[t])
  }

  ghost predicate Inv(window: nat, init: Tables, start: Time, s: State) {
    LogOk(window, init, start, s) && Exclusive(s.txs) && TxsOk(window, s) && Faithful(s.log, s.txs)
  }

  lemma InvGood(window: nat, init: Tables, start: Time, s: State)
    requires LogOk(window, init, start, s)
    ensures Good(window, s.tables, s.clock)
  {
    HistoryKeepsBound(window, init, start, s.log, s.clock);
  }

  // ----- a transaction is not disturbed by the others

  predicate TermsKept(before: Licenses, after: Licenses) {
    forall l :: l in before ==> l in after && SameTerms(before[l], after[l])
  }

  ghost predicate Undisturbed(window: nat, s: State, s': State, tx: Tx) {
    && s.clock <= s'.clock
    && TermsKept(s.tables.licenses, s'.tables.licenses)
    && (HeldLicense(tx).Some? && HeldLicense(tx).value in s.tables.licenses ==>
        var l := HeldLicense(tx).value;
        && s.tables.licenses[l].status == s'.tables.licenses[l].status
        && s.tables.licenses[l].owner == s'.tables.licenses[l].owner)
    && (HeldRow(tx).Some? && HeldRow(tx).value in s.tables.leases ==>
        HeldRow(tx).value in s'.tables.leases && s.tables.leases[HeldRow(tx).value] == s'.tables.leases[HeldRow(tx).value])
    && (tx.Verify? && HeldLicense(tx).Some? ==>
        var slot := Slot(HeldLicense(tx).value, tx.device);
        && (slot in s.tables.leases <==> slot in s'.tables.leases)
        && OthersLive(window, s'.tables.leases, slot, s'.clock) <= OthersLive(window, s.tables.leases, slot, s.clock))
  }

  lemma StaysOk(window: nat, s: State, s': State, tx: Tx)
    requires TxOk(window, s, tx) && Undisturbed(window, s, s', tx)
    ensures TxOk(window, s', tx)
  {
    if tx.Verify? {
      var pc := tx.vpc;
      if pc.Begun? || pc.Answered? || pc.Refused? {
      } else {
        assert HeldLicense(tx) == Some(pc.l);
        if pc.Granted? || pc.Written? || pc.Recounted? {
          if !pc.isNew {
            assert HeldRow(tx) == Some(Slot(pc.l, tx.device));
          }
        }
      }
    }
  }

  lemma LoggedGrows(log: seq<Event>, e: Event, tid: TxId, tx: Tx)
    requires Logged(log, tid, tx)
    ensures Logged(log + [e], tid, tx)
  {
    if HasAnswer(tx) {
      var i :| 0 <= i < |log| && IsAnswerOf(log[i], tid) && Matches(log[i], tx);
      assert (log + [e])[i] == log[i];
    }
  }

  lemma LoggedNow(log: seq<Event>, e: Event, tx: Tx)
    requires !e.LicensesChanged? && Matches(e, tx)
    ensures Logged(log + [e], e.tx, tx)
  {
    assert (log + [e])[|log|] == e;
  }

  /** Moving one transaction keeps the log faithful if its answer, when it has one, stays the same. */
  ghost predicate KeepsFaith(log: seq<Event>, tid: TxId, tx': Tx) {
    forall i :: 0 <= i < |log| && IsAnswerOf(log[i], tid) ==> Matches(log[i], tx')
  }

  /** The one event a step may add is the transaction's first answer. */
  ghost predicate FirstAnswer(log: seq<Event>, e: Event, tid: TxId, tx': Tx) {
    !e.LicensesChanged? ==> e.tx == tid && Unanswered(log, tid) && Matches(e, tx')
  }

  lemma FaithKept(log: seq<Event>, txs: map<TxId, Tx>, tid: TxId, tx': Tx)
    requires Faithful(log, txs) && KeepsFaith(log, tid, tx')
    ensures Faithful(log, txs[tid := tx'])
  {
  }

  lemma FaithExtended(log: seq<Event>, txs: map<TxId, Tx>, tid: TxId, tx': Tx, e: Event)
    requires Faithful(log, txs) && KeepsFaith(log, tid, tx') && FirstAnswer(log, e, tid, tx')
    ensures Faithful(log + [e], txs[tid := tx'])
  {
    FaithKept(log, txs, tid, tx');
  }

  /** A transaction may keep, drop or newly take a lock that is free. */
  ghost predicate LocksFairly(s: State, tid: TxId, tx': Tx) {
    && tid in s.txs
    && (HeldLicense(tx').None? || HeldLicense(tx') == HeldLicense(s.txs[tid]) || LicenseFree(s, HeldLicense(tx').value))
    && (HeldRow(tx').None? || HeldRow(tx') == HeldRow(s.txs[tid]) || RowFree(s, HeldRow(tx').value))
  }

  lemma ExclusiveKept(s: State, tid: TxId, tx': Tx)
    requires Exclusive(s.txs) && LocksFairly(s, tid, tx')
    ensures Exclusive(s.txs[tid := tx'])
  {
  }

  /** A step that only moves its own transaction. */
  lemma QuietStep(window: nat, init: Tables, start: Time, s: State, tid: TxId, tx': Tx)
    requires Inv(window, init, start, s) && LocksFairly(s, tid, tx')
    requires TxOk(window, s, tx') && Logged(s.log, tid, tx') && KeepsFaith(s.log, tid, tx')
    ensures Inv(window, init, start, s.(txs := s.txs[tid := tx']))
  {
    ExclusiveKept(s, tid, tx');
    FaithKept(s.log, s.txs, tid, tx');
    var s' := s.(txs := s.txs[tid := tx']);
    forall t | t in s'.txs ensures TxOk(window, s', s'.txs[t]) {
      StaysOk(window, s, s', s'.txs[t]);
    }
  }

  /** A step that takes effect: it appends one event and applies it to the tables. */
  lemma EffectiveStep(window: nat, init: Tables, start: Time, s: State, s': State, tid: TxId, tx': Tx, e: Event)
    requires Inv(window, init, start, s) && LocksFairly(s, tid, tx')
    requires EventOk(window, s.tables, e) && e.at == s.clock
    requires s' == State(s.clock, After(window, s.tables, e), s.txs[tid := tx'], s.log + [e])
    requires TxOk(window, s', tx') && Logged(s'.log, tid, tx')
    requires KeepsFaith(s.log, tid, tx') && FirstAnswer(s.log, e, tid, tx')
    requires forall t :: t in s.txs && t != tid ==> Undisturbed(window, s, s', s.txs[t])
    ensures Inv(window, init, start, s')
  {
    LegalExtend(window, init, start, s.log, e);
    ExclusiveKept(s, tid, tx');
    FaithExtended(s.log, s.txs, tid, tx', e);
    forall t | t in s'.txs ensures TxOk(window, s', s'.txs[t]) && Logged(s'.log, t, s'.txs[t]) {
      if t != tid {
        StaysOk(window, s, s', s.txs[t]);
        LoggedGrows(s.log, e, t, s.txs[t]);
      }
    }
  }

  /** A transaction whose answer is still open has none in the log. */
  lemma OpenIsUnanswered(s: State, tid: TxId)
    requires Faithful(s.log, s.txs) && tid in s.txs && !s.txs[tid].Dropped? && !HasAnswer(s.txs[tid])
    ensures Unanswered(s.log, tid)
  {
  }

  lemma NobodyDisturbed(window: nat, s: State, s': State)
    requires s'.clock == s.clock && s'.tables == s.tables
    ensures forall t :: t in s.txs ==> Undisturbed(window, s, s', s.txs[t])
  {
  }

  lemma RefusalIsOk(window: nat, init: Tables, start: Time, s: State, keyHash: Digest, device: Digest, e: Time)
    requires LogOk(window, init, start, s)
    ensures var d := LeaseRule(window, s.tables, keyHash, device, e, s.clock);
            d.Deny? ==> RefusalOk(s, d)
  {
    InvGood(window, init, start, s);
    var d := LeaseRule(window, s.tables, keyHash, device, e, s.clock);
    if d.Deny? && d.code == DeviceLimitReached {
      LimitRefusalIsExact(window, s.tables, keyHash, device, e, s.clock);
    }
  }

  lemma AnsweredNow(log: seq<Event>, tid: TxId, tx': Tx, e: Event)
    requires Unanswered(log, tid) && IsAnswerOf(e, tid) && Matches(e, tx')
    ensures KeepsFaith(log, tid, tx') && FirstAnswer(log, e, tid, tx') && Logged(log + [e], tid, tx')
  {
    LoggedNow(log, e, tx');
  }

  /** Fixing a refusal: the rule refuses in the same way at this instant. */
  lemma RefusalStep(window: nat, init: Tables, start: Time, s: State, tid: TxId, e: Time,
                    held: Option<LicenseId>, row: Option<Slot>, d: Decision)
    requires Inv(window, init, start, s) && tid in s.txs && s.txs[tid].Verify? && d.Deny? && e <= s.clock
    requires !HasAnswer(s.txs[tid])
    requires d == LeaseRule(window, s.tables, s.txs[tid].keyHash, s.txs[tid].device, e, s.clock)
    requires held.Some? ==> held.value in s.tables.licenses
    requires row.Some? ==> held == Some(row.value.license)
    requires LocksFairly(s, tid, s.txs[tid].(vpc := Refused(held, row, d)))
    ensures Inv(window, init, start, Refuse(s, tid, s.txs[tid], e, held, row, d).value)
  {
    var tx, s' := s.txs[tid], Refuse(s, tid, s.txs[tid], e, held, row, d).value;
    var tx' := tx.(vpc := Refused(held, row, d));
    var ev := Decided(tid, tx.keyHash, tx.device, e, s.clock, s.clock, d);
    RefusalIsOk(window, init, start, s, tx.keyHash, tx.device, e);
    OpenIsUnanswered(s, tid);
    AnsweredNow(s.log, tid, tx', ev);
    NobodyDisturbed(window, s, s');
    EffectiveStep(window, init, start, s, s', tid, tx', ev);
  }
}
