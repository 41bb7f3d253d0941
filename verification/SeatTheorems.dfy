/**
 What holds of every interleaved run of verify, release and status transactions with clock ticks, dropped
 transactions and administrative changes.
 */
module SeatTheorems {
  import opened Models
  import opened Leases
  import opened SeatHistory
  import opened SeatProtocol
  import opened SeatSafety
  import opened SeatSteps
  import LicenseService

  /** Safety: no licence, old or new, ever has more live devices than it allows, whatever the stamps were, and what a
      licence allows never changes. */
  lemma SeatsNeverExceeded(window: nat, s: State, actions: seq<Action>, end: State, l: LicenseId)
    requires Initial(window, s) && Run(window, s, actions) == Some(end)
    ensures l in end.tables.licenses ==> LiveCount(window, end.tables.leases, l, end.clock) <= end.tables.licenses[l].maxDevices
    ensures l in s.tables.licenses ==>
        l in end.tables.licenses && end.tables.licenses[l].maxDevices == s.tables.licenses[l].maxDevices
  {
    RunKeepsInv(window, s, actions);
    InvGood(window, s.tables, s.clock, end);
    if l in s.tables.licenses {
      TermsNeverChange(window, s.tables, s.clock, end.log, l);
    }
  }

  /** Linearisability: the tables are those of replaying the log with the atomic rule at each commit; each decision
      is what the rule gives there; and the answers of verifies, releases and status changes correspond one to one to
      logged events. */
  lemma RunsLinearise(window: nat, s: State, actions: seq<Action>, end: State)
    requires Initial(window, s) && Run(window, s, actions) == Some(end)
    ensures Legal(window, s.tables, s.clock, end.log) && EndTime(s.clock, end.log) <= end.clock
    ensures Replay(window, s.tables, end.log) == end.tables
    ensures forall t :: t in end.txs ==> Logged(end.log, t, end.txs[t])
    ensures Faithful(end.log, end.txs)
  {
    RunKeepsInv(window, s, actions);
  }

  /** The other half of the connection with the atomic handlers: the i-th step of the serial order is a call of
      LicenseService on the tables as they were, with all of the decision's later readings at its commit. */
  lemma RunsAreCalls(window: nat, s: State, actions: seq<Action>, end: State, i: nat)
    requires Initial(window, s) && Run(window, s, actions) == Some(end) && i < |end.log|
    ensures var before, after := Replay(window, s.tables, end.log[..i]), Replay(window, s.tables, end.log[..i + 1]);
            match end.log[i]
            case Decided(_, keyHash, device, expiryAt, at, stamp, d) =>
              && d == ThreePath(window, before, keyHash, device, expiryAt, at, at)
              && after == LicenseService.AfterDecision(before, d, stamp)
            case Released(_, keyHash, slot, readAt, _) =>
              LicenseService.GaveBack(window, keyHash, slot.device, readAt, before, after, true)
            case ReleaseMissed(_, keyHash, device, at) =>
              LicenseService.GaveBack(window, keyHash, device, at, before, after, false)
            case _ => after.leases == before.leases && Evolves(before.licenses, after.licenses)
  {
    RunKeepsInv(window, s, actions);
    LicenseService.EventsAreCalls(window, s.tables, s.clock, end.log, i);
  }

  /** An allowed answer reports at most the limit, a limit refusal exactly the limit, and no other refusal a number;
      SeatReports says exactly what an allowed answer counts. */
  lemma AnswersReportTheLimit(window: nat, s: State, actions: seq<Action>, end: State, t: TxId)
    requires Initial(window, s) && Run(window, s, actions) == Some(end)
    requires t in end.txs && end.txs[t].Verify? && end.txs[t].vpc.Answered?
    ensures var pc := end.txs[t].vpc;
            if pc.decision.Deny? then RefusalOk(end, pc.decision) && pc.reported == pc.decision.counted
            else GrantOk(end, pc.decision.slot.license, pc.reported)
  {
    RunKeepsInv(window, s, actions);
    assert TxOk(window, end, end.txs[t]);
  }

  // ----- deadlock freedom

  /** The only reasons for a transaction to wait: a locked licence row or a locked activation row. */
  ghost predicate WaitsFor(s: State, tx: Tx, l: Option<LicenseId>, row: Option<Slot>) {
    match tx
    case Verify(keyHash, _, Begun) => row.None? && l.Some? && l == Lookup(s.tables.licenses, keyHash) && !LicenseFree(s, l.value)
    case Verify(_, device, Unexpired(m, _)) => l.None? && row == Some(Slot(m, device)) && !RowFree(s, row.value)
    case ReleaseTx(_, _, ClockRead(_)) => l.None? && row.Some? && !RowFree(s, row.value)
    case SetStatus(m, _, _, StatusBegun) => row.None? && l == Some(m) && !LicenseFree(s, m)
    case _ => false
  }

  lemma WhyItWaits(window: nat, init: Tables, start: Time, s: State, t: TxId, stamp: Time)
    returns (l: Option<LicenseId>, row: Option<Slot>)
    requires Inv(window, init, start, s) && t in s.txs && !Finished(s.txs[t])
    requires TxStep(window, s, t, stamp).None?
    ensures WaitsFor(s, s.txs[t], l, row)
  {
    var tx := s.txs[t];
    assert TxOk(window, s, tx);
    l, row := None, None;
    match tx
    case Verify(keyHash, device, pc) =>
      if pc.Begun? {
        l := Lookup(s.tables.licenses, keyHash);
      } else {
        assert pc.Unexpired?;
        row := Some(Slot(pc.l, device));
      }
    case ReleaseTx(keyHash, device, pc) =>
      assert pc.ClockRead?;
      row := Some(Slot(Lookup(s.tables.licenses, keyHash).value, device));
    case SetStatus(m, _, _, pc) =>
      assert pc.StatusBegun?;
      l := Some(m);
    case Dropped =>
  }

  /** Whoever holds an activation row can go on. */
  lemma RowHolderMoves(window: nat, init: Tables, start: Time, s: State, t: TxId, stamp: Time)
    requires Inv(window, init, start, s) && t in s.txs && HeldRow(s.txs[t]).Some?
    ensures !Finished(s.txs[t]) && TxStep(window, s, t, stamp).Some?
  {
    if TxStep(window, s, t, stamp).None? {
      var l, row := WhyItWaits(window, init, start, s, t, stamp);
      assert false;
    }
  }

  /** Progress: as long as some transaction is unfinished, one of them can execute its next statement. */
  lemma NeverDeadlocked(window: nat, s: State, actions: seq<Action>, end: State, t: TxId, stamp: Time)
    returns (mover: TxId)
    requires Initial(window, s) && Run(window, s, actions) == Some(end)
    requires t in end.txs && !Finished(end.txs[t])
    ensures mover in end.txs && !Finished(end.txs[mover]) && TxStep(window, end, mover, stamp).Some?
  {
    RunKeepsInv(window, s, actions);
    mover := t;
    if TxStep(window, end, t, stamp).None? {
      var l, row := WhyItWaits(window, s.tables, s.clock, end, t, stamp);
      if l.Some? {
        mover :| mover in end.txs && HeldLicense(end.txs[mover]) == l;
        if TxStep(window, end, mover, stamp).None? {
          l, row := WhyItWaits(window, s.tables, s.clock, end, mover, stamp);
        }
      }
      if row.Some? {
        mover :| mover in end.txs && HeldRow(end.txs[mover]) == row;
        RowHolderMoves(window, s.tables, s.clock, end, mover, stamp);
      }
    }
  }

  // ----- bounded work

  /** The most statements a transaction still has to execute. */
  function Remaining(tx: Tx): nat {
    match tx
    case Verify(_, _, pc) =>
      (match pc
       case Begun => 8
       case Locked(_) => 7
       case Unexpired(_, _) => 6
       case RowLocked(_, _) => 5
       case RowStale(_, _) => 4
       case RowAbsent(_, _) => 4
       case Granted(_, _, _) => 3
       case Written(_, _, _, _) => 2
       case Recounted(_, _, _, _, _, _, _) => 1
       case Refused(_, _, _) => 1
       case Answered(_, _) => 0)
    case ReleaseTx(_, _, pc) =>
      (match pc
       case ReleaseBegun => 3
       case ClockRead(_) => 2
       case ReleaseWritten(_, _) => 1
       case ReleaseAnswered(_) => 0)
    case SetStatus(_, _, _, pc) =>
      (match pc case StatusBegun => 2 case StatusWritten => 1 case StatusAnswered(_) => 0)
    case Dropped => 0
  }

  ghost function TotalRemaining(txs: map<TxId, Tx>): nat
    decreases |txs|
  {
    if txs == map[] then 0
    else
      var t :| t in txs;
      assert |txs - {t}| < |txs| by { assert t in txs.Keys; assert (txs - {t}).Keys == txs.Keys - {t}; }
      Remaining(txs[t]) + TotalRemaining(txs - {t})
  }

  lemma {:induction false} TotalSplit(txs: map<TxId, Tx>, t: TxId)
    requires t in txs
    ensures TotalRemaining(txs) == Remaining(txs[t]) + TotalRemaining(txs - {t})
    decreases |txs|
  {
    var u :| u in txs && TotalRemaining(txs) == Remaining(txs[u]) + TotalRemaining(txs - {u});
    if u != t {
      assert (txs - {u}).Keys == txs.Keys - {u} && u in txs.Keys;
      assert (txs - {t}).Keys == txs.Keys - {t} && t in txs.Keys;
      TotalSplit(txs - {u}, t);
      TotalSplit(txs - {t}, u);
      assert txs - {u} - {t} == txs - {t} - {u};
    }
  }

  lemma TotalUpdate(txs: map<TxId, Tx>, t: TxId, tx: Tx)
    ensures TotalRemaining(txs[t := tx]) == Remaining(tx) + TotalRemaining(txs - {t})
    ensures t in txs ==> TotalRemaining(txs) == Remaining(txs[t]) + TotalRemaining(txs - {t})
    ensures t !in txs ==> txs - {t} == txs
  {
    TotalSplit(txs[t := tx], t);
    assert txs[t := tx] - {t} == txs - {t};
    if t in txs {
      TotalSplit(txs, t);
    }
  }

  predicate IsWork(a: Action) {
    a.Step? || a.Abort?
  }

  /** The result of moving one transaction to a later program point. */
  ghost predicate MovesOn(s: State, t: TxId, tx: Tx, s': State) {
    t in s'.txs && s'.txs == s.txs[t := s'.txs[t]] && Remaining(s'.txs[t]) < Remaining(tx)
  }

  lemma ReadingStepDecreases(window: nat, s: State, t: TxId, tx: Tx, stamp: Time)
    requires tx.Verify? && (tx.vpc.Begun? || tx.vpc.Locked? || tx.vpc.Unexpired? || tx.vpc.RowLocked?)
    requires VerifyStep(window, s, t, tx, stamp).Some?
    ensures MovesOn(s, t, tx, VerifyStep(window, s, t, tx, stamp).value)
  {
  }

  lemma CountingStepDecreases(window: nat, s: State, t: TxId, tx: Tx, stamp: Time)
    requires tx.Verify? && (tx.vpc.RowStale? || tx.vpc.RowAbsent?)
    requires VerifyStep(window, s, t, tx, stamp).Some?
    ensures MovesOn(s, t, tx, VerifyStep(window, s, t, tx, stamp).value)
  {
  }

  lemma WritingStepDecreases(window: nat, s: State, t: TxId, tx: Tx, stamp: Time)
    requires tx.Verify? && (tx.vpc.Granted? || tx.vpc.Written? || tx.vpc.Recounted? || tx.vpc.Refused?)
    requires VerifyStep(window, s, t, tx, stamp).Some?
    ensures MovesOn(s, t, tx, VerifyStep(window, s, t, tx, stamp).value)
  {
  }

  lemma VerifyStepDecreases(window: nat, s: State, t: TxId, tx: Tx, stamp: Time)
    requires tx.Verify? && VerifyStep(window, s, t, tx, stamp).Some?
    ensures MovesOn(s, t, tx, VerifyStep(window, s, t, tx, stamp).value)
  {
    var pc := tx.vpc;
    if pc.Begun? || pc.Locked? || pc.Unexpired? || pc.RowLocked? {
      ReadingStepDecreases(window, s, t, tx, stamp);
    } else if pc.RowStale? || pc.RowAbsent? {
      CountingStepDecreases(window, s, t, tx, stamp);
    } else {
      WritingStepDecreases(window, s, t, tx, stamp);
    }
  }

  lemma OtherStepDecreases(window: nat, s: State, t: TxId, tx: Tx)
    requires (tx.ReleaseTx? && ReleaseStep(window, s, t, tx).Some?) || (tx.SetStatus? && StatusStep(s, t, tx).Some?)
    ensures MovesOn(s, t, tx, if tx.ReleaseTx? then ReleaseStep(window, s, t, tx).value else StatusStep(s, t, tx).value)
  {
  }

  lemma AbortDecreases(tx: Tx)
    requires !Finished(tx)
    ensures Remaining(Dropped) < Remaining(tx)
  {
  }

  lemma StepDecreases(window: nat, s: State, a: Action)
    requires IsWork(a) && Next(window, s, a).Some?
    ensures a.tid in s.txs && MovesOn(s, a.tid, s.txs[a.tid], Next(window, s, a).value)
  {
    var tx := s.txs[a.tid];
    if a.Abort? {
      AbortDecreases(tx);
    } else if tx.Verify? {
      VerifyStepDecreases(window, s, a.tid, tx, a.stamp);
    } else {
      OtherStepDecreases(window, s, a.tid, tx);
    }
  }

  /** Every statement and every abort uses up some of the remaining work; only a new transaction adds any. */
  lemma WorkDecreases(window: nat, s: State, a: Action)
    requires Next(window, s, a).Some?
    ensures var s' := Next(window, s, a).value;
            && (IsWork(a) ==> TotalRemaining(s'.txs) < TotalRemaining(s.txs))
            && (a.Begin? ==> TotalRemaining(s'.txs) <= TotalRemaining(s.txs) + 8)
            && (!IsWork(a) && !a.Begin? ==> s'.txs == s.txs)
  {
    var s' := Next(window, s, a).value;
    if IsWork(a) {
      StepDecreases(window, s, a);
      TotalUpdate(s.txs, a.tid, s'.txs[a.tid]);
    } else if a.Begin? {
      TotalUpdate(s.txs, a.tid, a.tx);
    }
  }

  function CountWork(actions: seq<Action>): nat {
    if actions == [] then 0
    else CountWork(actions[..|actions| - 1]) + (if IsWork(actions[|actions| - 1]) then 1 else 0)
  }

  function CountBegins(actions: seq<Action>): nat {
    if actions == [] then 0
    else CountBegins(actions[..|actions| - 1]) + (if actions[|actions| - 1].Begin? then 1 else 0)
  }

  /** Termination: in any run at most eight statements are executed per transaction begun. */
  lemma {:induction false} WorkIsBounded(window: nat, s: State, actions: seq<Action>, end: State)
    requires s.txs == map[] && Run(window, s, actions) == Some(end)
    ensures CountWork(actions) + TotalRemaining(end.txs) <= 8 * CountBegins(actions)
  {
    if actions == [] {
    } else {
      var before := actions[..|actions| - 1];
      var mid := Run(window, s, before).value;
      WorkIsBounded(window, s, before, mid);
      WorkDecreases(window, mid, actions[|actions| - 1]);
    }
  }

  // ----- promises over time, for interleaved runs

  /** The sliding-window bound holds of the log of every run. */
  lemma RunSlidingWindow(window: nat, lag: nat, s: State, actions: seq<Action>, end: State, l: LicenseId, holders: set<Slot>)
    requires Initial(window, s) && Run(window, s, actions) == Some(end)
    requires lag < window && LagBounded(lag, end.log) && l in end.tables.licenses
    requires forall p :: p in holders ==> p.license == l && HeldSince(end.log, p, end.clock - (window - lag))
    ensures |holders| <= end.tables.licenses[l].maxDevices
  {
    RunKeepsInv(window, s, actions);
    SlidingWindow(window, lag, s.tables, s.clock, end.log, l, end.clock, holders);
  }

  /** A device that keeps its heartbeat is granted on every visit, in every run. */
  lemma RunHeartbeat(window: nat, lag: nat, s: State, actions: seq<Action>, end: State, slot: Slot, first: nat, k: nat)
    requires Initial(window, s) && Run(window, s, actions) == Some(end)
    requires lag < window - window / 2 && LagBounded(lag, end.log)
    requires HeldFrom(end.log, slot, first) && first <= k < |end.log| && About(end.log[k], slot)
    requires OtherwiseWelcome(end.log, slot, first) && Punctual(end.log, slot, first, window / 2)
    ensures IsGrant(end.log[k], slot)
  {
    RunKeepsInv(window, s, actions);
    HeartbeatKeepsSeat(window, lag, s.tables, s.clock, end.log, slot, first, k);
  }

  /** In every run a limit refusal does not outlast its cause: it is not repeated when a device that was live at the
      refusal was released and no other seat of the licence was taken, or when a whole window passed without a grant. */
  lemma RunRecovers(window: nat, lag: nat, s: State, actions: seq<Action>, end: State, slot: Slot, i: nat, k: nat)
    requires Initial(window, s) && Run(window, s, actions) == Some(end) && RefusedThenBack(end.log, slot, i, k)
    requires (exists j, freed :: Freed(window, Replay(window, s.tables, end.log[..i]), end.log, slot, i, j, k, freed))
        || (SeenBy(s.tables, s.clock) && LagBounded(lag, end.log) && end.log[i].at + window <= end.log[k].at
            && GrantsWithin(end.log[..k], i, slot.license, {}))
    ensures !IsLimitRefusal(end.log[k], slot)
  {
    RunKeepsInv(window, s, actions);
    if j, freed :| Freed(window, Replay(window, s.tables, end.log[..i]), end.log, slot, i, j, k, freed) {
      NextVisitAfterRelease(window, s.tables, s.clock, end.log, slot, i, j, k, freed);
    } else {
      NextVisitAfterWindow(window, lag, s.tables, s.clock, end.log, slot, i, k);
    }
  }
}
