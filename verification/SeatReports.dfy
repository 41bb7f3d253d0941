/**
 The `active_devices` number of an allowed answer in the interleaved protocol: it is counted after the transaction's
 own write and before its commit, under the licence lock, while releases and the clock go on.
 */
module SeatReports {
  import opened Models
  import opened Leases
  import opened SeatHistory
  import opened SeatProtocol
  import opened SeatSafety
  import opened SeatSteps

  // ----- what a recount has seen

  /** The seats of the licence at clock `at`, on the tables that the first `place` events left, with the write of the
      granting event `e` on top. */
  ghost function SeatsSeen(window: nat, init: Tables, log: seq<Event>, place: nat, e: Event, l: LicenseId, at: Time): set<Slot>
    requires place <= |log|
  {
    LiveSlots(window, After(window, Replay(window, init, log[..place]), e).leases, l, at)
  }

  /** Event `i` is the grant of `slot`; `n` was counted at clock `at`, when `place` events were in the log, and no seat of
      the licence was granted in between. */
  ghost predicate Reported(window: nat, init: Tables, log: seq<Event>, i: nat, place: nat, at: Time, slot: Slot, n: nat) {
    && place <= i < |log| && IsGrant(log[i], slot) && at <= log[i].at
    && slot.license in Replay(window, init, log[..place]).licenses
    && n == |SeatsSeen(window, init, log, place, log[i], slot.license, at)|
    && GrantsWithin(log[..i], place, slot.license, {})
  }

  /** The grant event a transaction that has recounted is about to log. */
  function OwnGrant(slot: Slot, stamp: Time, at: Time): Event {
    Decided(0, "", slot.device, at, at, stamp, Grant(slot))
  }

  ghost predicate RecountOk(window: nat, init: Tables, s: State, slot: Slot, stamp: Time, n: nat, at: Time, place: nat) {
    && place <= |s.log| && at <= s.clock && slot.license in Replay(window, init, s.log[..place]).licenses
    && n == |SeatsSeen(window, init, s.log, place, OwnGrant(slot, stamp, at), slot.license, at)|
    && GrantsWithin(s.log, place, slot.license, {})
  }

  ghost predicate HasReport(window: nat, init: Tables, log: seq<Event>, tid: TxId, slot: Slot, n: nat) {
    exists i: nat, place: nat, at: Time :: Reported(window, init, log, i, place, at, slot, n) && IsAnswerOf(log[i], tid)
  }

  ghost predicate ReportOk(window: nat, init: Tables, s: State, tid: TxId, tx: Tx) {
    match tx
    case Verify(_, device, Recounted(l, _, _, stamp, n, at, place)) =>
      RecountOk(window, init, s, Slot(l, device), stamp, n, at, place)
    case Verify(_, _, Answered(Grant(slot), reported)) =>
      reported.Some? && HasReport(window, init, s.log, tid, slot, reported.value)
    case _ => true
  }

  ghost predicate ReportsOk(window: nat, init: Tables, s: State) {
    forall t :: t in s.txs ==> ReportOk(window, init, s, t, s.txs[t])
  }

  // ----- one step

  ghost predicate GrantsOn(e: Event, l: LicenseId) {
    e.Decided? && e.decision.Grant? && e.decision.slot.license == l
  }

  /** At most one event is logged, by the transaction that moves; if it grants a seat, under the licence's lock. */
  ghost predicate OneMove(s: State, s': State, mover: Option<TxId>) {
    && s.clock <= s'.clock
    && (forall t :: t in s'.txs && mover != Some(t) ==> t in s.txs && s'.txs[t] == s.txs[t])
    && (s'.log == s.log ||
        (|s'.log| == |s.log| + 1 && s'.log[..|s.log|] == s.log
         && (s'.log[|s.log|].Decided? && s'.log[|s.log|].decision.Grant? ==>
               mover.Some? && mover.value in s.txs
               && HeldLicense(s.txs[mover.value]) == Some(s'.log[|s.log|].decision.slot.license))))
  }

  function Mover(a: Action): Option<TxId> {
    match a
    case Begin(tid, _) => Some(tid)
    case Step(tid, _) => Some(tid)
    case Abort(tid) => Some(tid)
    case _ => None
  }

  lemma ReadingMoves(window: nat, s: State, tid: TxId, tx: Tx, stamp: Time)
    requires tid in s.txs && s.txs[tid] == tx && tx.Verify? && VerifyStep(window, s, tid, tx, stamp).Some?
    requires tx.vpc.Begun? || tx.vpc.Locked? || tx.vpc.Unexpired? || tx.vpc.RowLocked?
    ensures OneMove(s, VerifyStep(window, s, tid, tx, stamp).value, Some(tid))
  {
  }

  lemma CountingMoves(window: nat, s: State, tid: TxId, tx: Tx, stamp: Time)
    requires tid in s.txs && s.txs[tid] == tx && tx.Verify? && VerifyStep(window, s, tid, tx, stamp).Some?
    requires tx.vpc.RowStale? || tx.vpc.RowAbsent? || tx.vpc.Granted? || tx.vpc.Written?
    ensures OneMove(s, VerifyStep(window, s, tid, tx, stamp).value, Some(tid))
  {
  }

  lemma CommitMoves(window: nat, s: State, tid: TxId, tx: Tx, stamp: Time)
    requires tid in s.txs && s.txs[tid] == tx && tx.Verify? && VerifyStep(window, s, tid, tx, stamp).Some?
    requires tx.vpc.Recounted? || tx.vpc.Refused?
    ensures OneMove(s, VerifyStep(window, s, tid, tx, stamp).value, Some(tid))
  {
  }

  lemma VerifyMoves(window: nat, s: State, tid: TxId, tx: Tx, stamp: Time)
    requires tid in s.txs && s.txs[tid] == tx && tx.Verify? && VerifyStep(window, s, tid, tx, stamp).Some?
    ensures OneMove(s, VerifyStep(window, s, tid, tx, stamp).value, Some(tid))
  {
    var pc := tx.vpc;
    if pc.Begun? || pc.Locked? || pc.Unexpired? || pc.RowLocked? {
      ReadingMoves(window, s, tid, tx, stamp);
    } else if pc.Recounted? || pc.Refused? {
      CommitMoves(window, s, tid, tx, stamp);
    } else {
      CountingMoves(window, s, tid, tx, stamp);
    }
  }

  lemma OthersMove(window: nat, s: State, tid: TxId, tx: Tx)
    requires tid in s.txs && s.txs[tid] == tx
    requires (tx.ReleaseTx? && ReleaseStep(window, s, tid, tx).Some?) || (tx.SetStatus? && StatusStep(s, tid, tx).Some?)
    ensures OneMove(s, if tx.ReleaseTx? then ReleaseStep(window, s, tid, tx).value else StatusStep(s, tid, tx).value, Some(tid))
  {
  }

  lemma NextMoves(window: nat, s: State, a: Action, s': State)
    requires TxsOk(window, s) && Next(window, s, a) == Some(s')
    ensures OneMove(s, s', Mover(a))
  {
    if a.Step? {
      var tx := s.txs[a.tid];
      assert TxOk(window, s, tx);
      if tx.Verify? {
        VerifyMoves(window, s, a.tid, tx, a.stamp);
      } else {
        OthersMove(window, s, a.tid, tx);
      }
    }
  }

  // ----- the other transactions keep their reports

  lemma SameBeginning(log: seq<Event>, log': seq<Event>, n: nat)
    requires |log| <= |log'| && log'[..|log|] == log && n <= |log|
    ensures log'[..n] == log[..n]
  {
    assert log'[..n] == log'[..|log|][..n];
  }

  lemma RecountStays(window: nat, init: Tables, s: State, s': State, slot: Slot, stamp: Time, n: nat, at: Time, place: nat)
    requires RecountOk(window, init, s, slot, stamp, n, at, place) && s.clock <= s'.clock
    requires s'.log == s.log || (|s'.log| == |s.log| + 1 && s'.log[..|s.log|] == s.log && !GrantsOn(s'.log[|s.log|], slot.license))
    ensures RecountOk(window, init, s', slot, stamp, n, at, place)
  {
    if s'.log != s.log {
      SameBeginning(s.log, s'.log, place);
      forall m | place <= m < |s'.log| ensures !GrantsOn(s'.log[m], slot.license) {
        if m < |s.log| {
          assert s'.log[m] == s.log[m];
        }
      }
    }
  }

  lemma ReportStays(window: nat, init: Tables, log: seq<Event>, log': seq<Event>, tid: TxId, slot: Slot, n: nat)
    requires HasReport(window, init, log, tid, slot, n) && |log| <= |log'| && log'[..|log|] == log
    ensures HasReport(window, init, log', tid, slot, n)
  {
    var i: nat, place: nat, at: Time :| Reported(window, init, log, i, place, at, slot, n) && IsAnswerOf(log[i], tid);
    SameBeginning(log, log', place);
    SameBeginning(log, log', i);
    assert log'[i] == log[i];
    assert Reported(window, init, log', i, place, at, slot, n);
  }

  lemma OthersKeepReports(window: nat, init: Tables, s: State, s': State, mover: Option<TxId>, t: TxId)
    requires ReportsOk(window, init, s) && Exclusive(s.txs) && OneMove(s, s', mover)
    requires t in s'.txs && mover != Some(t)
    ensures ReportOk(window, init, s', t, s'.txs[t])
  {
    var tx := s.txs[t];
    assert ReportOk(window, init, s, t, tx);
    if tx.Verify? && tx.vpc.Recounted? {
      var pc := tx.vpc;
      assert HeldLicense(tx) == Some(pc.l);
      RecountStays(window, init, s, s', Slot(pc.l, tx.device), pc.stamp, pc.n, pc.at, pc.place);
    } else if tx.Verify? && tx.vpc.Answered? && tx.vpc.decision.Grant? {
      ReportStays(window, init, s.log, s'.log, t, tx.vpc.decision.slot, tx.vpc.reported.value);
    }
  }

  // ----- the moving transaction

  lemma RecountIsOk(window: nat, init: Tables, start: Time, s: State, tid: TxId, stamp: Time)
    requires LogOk(window, init, start, s) && tid in s.txs && s.txs[tid].Verify? && s.txs[tid].vpc.Written?
    requires VerifyStep(window, s, tid, s.txs[tid], stamp).Some?
    ensures var s' := VerifyStep(window, s, tid, s.txs[tid], stamp).value;
            ReportOk(window, init, s', tid, s'.txs[tid])
  {
    var tx, pc := s.txs[tid], s.txs[tid].vpc;
    assert s.log[..|s.log|] == s.log;
  }

  lemma CommitReports(window: nat, init: Tables, s: State, s': State, tid: TxId, tx: Tx)
    requires tid in s.txs && s.txs[tid] == tx && tx.Verify? && tx.vpc.Recounted? && ReportOk(window, init, s, tid, tx)
    requires var slot := Slot(tx.vpc.l, tx.device);
             s'.log == s.log + [Decided(tid, tx.keyHash, tx.device, tx.vpc.e, s.clock, tx.vpc.stamp, Grant(slot))]
    ensures HasReport(window, init, s'.log, tid, Slot(tx.vpc.l, tx.device), tx.vpc.n)
  {
    var pc, i := tx.vpc, |s.log|;
    assert s'.log[..i] == s.log;
    SameBeginning(s.log, s'.log, pc.place);
    assert Reported(window, init, s'.log, i, pc.place, pc.at, Slot(pc.l, tx.device), pc.n);
    assert IsAnswerOf(s'.log[i], tid);
  }

  lemma MoverReports(window: nat, init: Tables, start: Time, s: State, s': State, tid: TxId, stamp: Time)
    requires Inv(window, init, start, s) && ReportsOk(window, init, s) && tid in s.txs && s.txs[tid].Verify?
    requires VerifyStep(window, s, tid, s.txs[tid], stamp) == Some(s') && tid in s'.txs
    ensures ReportOk(window, init, s', tid, s'.txs[tid])
  {
    var tx := s.txs[tid];
    assert TxOk(window, s, tx) && ReportOk(window, init, s, tid, tx);
    if tx.vpc.Written? {
      RecountIsOk(window, init, start, s, tid, stamp);
    } else if tx.vpc.Recounted? {
      CommitReports(window, init, s, s', tid, tx);
    }
  }

  lemma NextKeepsReports(window: nat, init: Tables, start: Time, s: State, a: Action, s': State)
    requires Inv(window, init, start, s) && ReportsOk(window, init, s) && Next(window, s, a) == Some(s')
    ensures ReportsOk(window, init, s')
  {
    NextMoves(window, s, a, s');
    forall t | t in s'.txs ensures ReportOk(window, init, s', t, s'.txs[t]) {
      if Mover(a) != Some(t) {
        OthersKeepReports(window, init, s, s', Mover(a), t);
      } else if a.Step? && s.txs[t].Verify? {
        MoverReports(window, init, start, s, s', t, a.stamp);
      }
    }
  }

  lemma {:induction false} RunKeepsReports(window: nat, s: State, actions: seq<Action>)
    requires Initial(window, s) && Run(window, s, actions).Some?
    ensures ReportsOk(window, s.tables, Run(window, s, actions).value)
  {
    if actions == [] {
    } else {
      var before := actions[..|actions| - 1];
      RunKeepsReports(window, s, before);
      RunKeepsInv(window, s, before);
      NextKeepsReports(window, s.tables, s.clock, Run(window, s, before).value, actions[|actions| - 1],
                       Run(window, s, actions).value);
    }
  }

  // ----- what the number means at the commit

  /** Revocation marks and rows stay; while no seat of a licence is granted or given back its rows do not change at all. */
  lemma {:induction false} RowsSince(window: nat, t: Tables, h: seq<Event>, n: nat, p: Slot)
    requires n <= |h|
    requires p in Replay(window, t, h[..n]).leases
    ensures p in Replay(window, t, h).leases
    ensures Replay(window, t, h).leases[p].revokedAt == Replay(window, t, h[..n]).leases[p].revokedAt
  {
    if n == |h| {
      assert h[..n] == h;
    } else {
      assert h[..|h| - 1][..n] == h[..n];
      RowsSince(window, t, h[..|h| - 1], n, p);
    }
  }

  ghost predicate ReleasedOn(e: Event, l: LicenseId) {
    e.Released? && e.slot.license == l
  }

  predicate SameRow(a: LeaseTable, b: LeaseTable, p: Slot) {
    (p in a <==> p in b) && (p in a ==> a[p] == b[p])
  }

  lemma {:induction false} QuietRows(window: nat, t: Tables, h: seq<Event>, n: nat, p: Slot)
    requires n <= |h| && GrantsWithin(h, n, p.license, {})
    requires forall m :: n <= m < |h| ==> !ReleasedOn(h[m], p.license)
    ensures SameRow(Replay(window, t, h[..n]).leases, Replay(window, t, h).leases, p)
  {
    if n == |h| {
      assert h[..n] == h;
    } else {
      var before := h[..|h| - 1];
      assert before[..n] == h[..n];
      assert GrantsWithin(before, n, p.license, {});
      QuietRows(window, t, before, n, p);
      assert !ReleasedOn(h[|h| - 1], p.license);
    }
  }

  /** Nothing of the licence was released between the recount and the commit, and no lease it counted ran out. */
  ghost predicate Quiet(window: nat, init: Tables, log: seq<Event>, i: nat, place: nat, at: Time, l: LicenseId)
    requires place <= i < |log|
  {
    && (forall m :: place <= m < i ==> !ReleasedOn(log[m], l))
    && SeatsSeen(window, init, log, place, log[i], l, at) <= SeatsSeen(window, init, log, place, log[i], l, log[i].at)
  }

  lemma GrantedSeats(window: nat, t: Tables, e: Event, slot: Slot, p: Slot, now: Time)
    requires IsGrant(e, slot) && slot.license in t.licenses
    ensures p != slot ==> (p in LiveSlots(window, After(window, t, e).leases, slot.license, now)
                           <==> p in LiveSlots(window, t.leases, slot.license, now))
    ensures slot in LiveSlots(window, After(window, t, e).leases, slot.license, now)
        <==> e.stamp > now - window && (slot in t.leases ==> t.leases[slot].revokedAt.None?)
  {
  }

  lemma GrantOnFewer(window: nat, earlier: Tables, later: Tables, e: Event, slot: Slot, now: Time)
    requires IsGrant(e, slot) && slot.license in earlier.licenses && slot.license in later.licenses
    requires LiveSlots(window, later.leases, slot.license, now) <= LiveSlots(window, earlier.leases, slot.license, now)
    requires slot in earlier.leases ==> slot in later.leases && earlier.leases[slot].revokedAt == later.leases[slot].revokedAt
    ensures LiveSlots(window, After(window, later, e).leases, slot.license, now)
         <= LiveSlots(window, After(window, earlier, e).leases, slot.license, now)
  {
    forall p | p in LiveSlots(window, After(window, later, e).leases, slot.license, now)
      ensures p in LiveSlots(window, After(window, earlier, e).leases, slot.license, now)
    {
      GrantedSeats(window, later, e, slot, p, now);
      GrantedSeats(window, earlier, e, slot, p, now);
    }
  }

  /** The tables right before the grant, compared with those the recount saw. */
  lemma FewerBeforeGrant(window: nat, init: Tables, start: Time, log: seq<Event>, i: nat, place: nat, slot: Slot,
                         earlier: Tables, later: Tables)
    requires Legal(window, init, start, log) && place <= i < |log| && GrantsWithin(log[..i], place, slot.license, {})
    requires earlier == Replay(window, init, log[..place]) && later == Replay(window, init, log[..i])
    requires slot.license in earlier.licenses
    ensures slot.license in later.licenses
    ensures LiveSlots(window, later.leases, slot.license, log[i].at) <= LiveSlots(window, earlier.leases, slot.license, log[i].at)
    ensures slot in earlier.leases ==> slot in later.leases && earlier.leases[slot].revokedAt == later.leases[slot].revokedAt
  {
    AtEvent(window, init, start, log, i);
    assert log[..i][..place] == log[..place];
    SeatsComeFromGrants(window, init, start, log[..i], place, slot.license, {}, log[i].at);
    TermsKeptSince(window, init, start, log[..i], place, slot.license);
    if slot in earlier.leases {
      RowsSince(window, init, log[..i], place, slot);
    }
  }

  /** At the commit at most the seats that the recount saw are taken. */
  lemma SeatsAtCommit(window: nat, init: Tables, start: Time, log: seq<Event>, i: nat, place: nat, at: Time, slot: Slot, n: nat)
    requires Legal(window, init, start, log) && Reported(window, init, log, i, place, at, slot, n)
    ensures LiveSlots(window, Replay(window, init, log[..i + 1]).leases, slot.license, log[i].at)
         <= SeatsSeen(window, init, log, place, log[i], slot.license, log[i].at)
         <= SeatsSeen(window, init, log, place, log[i], slot.license, at)
  {
    var earlier, later := Replay(window, init, log[..place]), Replay(window, init, log[..i]);
    AtEvent(window, init, start, log, i);
    FewerBeforeGrant(window, init, start, log, i, place, slot, earlier, later);
    GrantOnFewer(window, earlier, later, log[i], slot, log[i].at);
    TimeOnlyFrees(window, After(window, earlier, log[i]).leases, slot.license, at, log[i].at);
  }

  /** When it was quiet in between, exactly those are. */
  lemma SameSeatsAtCommit(window: nat, init: Tables, start: Time, log: seq<Event>, i: nat, place: nat, at: Time, slot: Slot, n: nat)
    requires Legal(window, init, start, log) && Reported(window, init, log, i, place, at, slot, n)
    requires Quiet(window, init, log, i, place, at, slot.license)
    ensures LiveSlots(window, Replay(window, init, log[..i + 1]).leases, slot.license, log[i].at)
         == SeatsSeen(window, init, log, place, log[i], slot.license, at)
  {
    SeatsAtCommit(window, init, start, log, i, place, at, slot, n);
    var earlier, later := Replay(window, init, log[..place]), Replay(window, init, log[..i]);
    AtEvent(window, init, start, log, i);
    assert log[..i][..place] == log[..place];
    TermsKeptSince(window, init, start, log[..i], place, slot.license);
    forall p | p in SeatsSeen(window, init, log, place, log[i], slot.license, at)
      ensures p in LiveSlots(window, After(window, later, log[i]).leases, slot.license, log[i].at)
    {
      GrantedSeats(window, earlier, log[i], slot, p, log[i].at);
      GrantedSeats(window, later, log[i], slot, p, log[i].at);
      QuietRows(window, init, log[..i], place, p);
    }
  }

  /** In every run an allowed answer reports exactly the seats that were taken, its own included, when it recounted: no
      fewer than are taken at its commit, so at least one while its own stamp is inside the window, and just as many if
      no seat of the licence was given back and none ran out in between. */
  lemma AnswersCountTheSeats(window: nat, s: State, actions: seq<Action>, end: State, t: TxId)
    returns (i: nat, place: nat, at: Time)
    requires Initial(window, s) && Run(window, s, actions) == Some(end)
    requires t in end.txs && end.txs[t].Verify? && end.txs[t].vpc.Answered? && end.txs[t].vpc.decision.Grant?
    ensures var slot, reported := end.txs[t].vpc.decision.slot, end.txs[t].vpc.reported;
            && reported.Some? && Reported(window, s.tables, end.log, i, place, at, slot, reported.value)
            && IsAnswerOf(end.log[i], t)
            && var seats := LiveSlots(window, Replay(window, s.tables, end.log[..i + 1]).leases, slot.license, end.log[i].at);
               && reported.value >= |seats|
               && (end.log[i].stamp > end.log[i].at - window ==> slot in seats && reported.value >= 1)
               && (Quiet(window, s.tables, end.log, i, place, at, slot.license) ==> reported.value == |seats|)
  {
    RunKeepsInv(window, s, actions);
    RunKeepsReports(window, s, actions);
    var slot, n := end.txs[t].vpc.decision.slot, end.txs[t].vpc.reported.value;
    assert ReportOk(window, s.tables, end, t, end.txs[t]);
    i, place, at :| Reported(window, s.tables, end.log, i, place, at, slot, n) && IsAnswerOf(end.log[i], t);
    SeatsAtCommit(window, s.tables, s.clock, end.log, i, place, at, slot, n);
    var seats := LiveSlots(window, Replay(window, s.tables, end.log[..i + 1]).leases, slot.license, end.log[i].at);
    SubsetSize(seats, SeatsSeen(window, s.tables, end.log, place, end.log[i], slot.license, at));
    OwnSeat(window, s.tables, s.clock, end.log, i, slot);
    if Quiet(window, s.tables, end.log, i, place, at, slot.license) {
      SameSeatsAtCommit(window, s.tables, s.clock, end.log, i, place, at, slot, n);
    }
    if slot in seats {
      SubsetSize({slot}, seats);
    }
  }

  lemma OwnSeat(window: nat, init: Tables, start: Time, log: seq<Event>, i: nat, slot: Slot)
    requires Good(window, init, start) && Legal(window, init, start, log) && i < |log| && IsGrant(log[i], slot)
    ensures log[i].stamp > log[i].at - window ==>
        slot in LiveSlots(window, Replay(window, init, log[..i + 1]).leases, slot.license, log[i].at)
  {
    AtEvent(window, init, start, log, i);
    HistoryKeepsBound(window, init, start, log[..i], log[i].at);
    GrantIsSeen(window, Replay(window, init, log[..i]), log[i], slot);
  }
}
