/**
 Sequences of bulk status changes on one owner's keys (src/routes/admin.rs, set_user_license_status): where every key
 ends up, and what the reported counts add up to.
 */
module BulkChanges {
  import opened Models
  import opened Database
  import opened Ledger

  /** One key under a sequence of bulk changes. */
  function Settle(status: LicenseStatus, changes: seq<LicenseStatus>): LicenseStatus {
    if changes == [] then status
    else
      var before, last := Settle(status, changes[..|changes| - 1]), changes[|changes| - 1];
      if BulkApplies(last, before) then last else before
  }

  /** How often the key's status is really another one after a change than before it. */
  function Changes(status: LicenseStatus, changes: seq<LicenseStatus>): nat {
    if changes == [] then 0
    else
      var init := changes[..|changes| - 1];
      Changes(status, init) + (if Settle(status, changes) != Settle(status, init) then 1 else 0)
  }

  /** The filter selects exactly the keys whose status the change alters. */
  lemma FilterIsExact(change: LicenseStatus, current: LicenseStatus)
    ensures BulkApplies(change, current) <==> current != (if current == Revoked then Revoked else change)
  {
  }

  /** A bulk change reports the number of keys whose status is another one afterwards. */
  lemma BulkCountIsReal(cfg: Config, db: Db, owner: UserId, change: LicenseStatus, after: Db)
    requires after == Commit(cfg, db, BulkStatus(owner, change)).value.db
    ensures Commit(cfg, db, BulkStatus(owner, change)).value.reply
         == Updated(|set l | l in db.licenses && after.licenses[l].status != db.licenses[l].status|)
  {
    assert BulkTargets(db.licenses, owner, change)
        == set l | l in db.licenses && after.licenses[l].status != db.licenses[l].status;
  }

  /** Normal form: revoked once is revoked for good, otherwise the last change wins. */
  lemma {:induction false} BulkNormalForm(status: LicenseStatus, changes: seq<LicenseStatus>)
    requires changes != []
    ensures Settle(status, changes)
         == if status == Revoked || Revoked in changes then Revoked else changes[|changes| - 1]
  {
    var init, last := changes[..|changes| - 1], changes[|changes| - 1];
    assert Revoked in changes <==> Revoked in init || last == Revoked;
    if init == [] {
    } else {
      BulkNormalForm(status, init);
    }
  }

  function BulkHistory(owner: UserId, changes: seq<LicenseStatus>): seq<Txn> {
    if changes == [] then []
    else BulkHistory(owner, changes[..|changes| - 1]) + [BulkStatus(owner, changes[|changes| - 1])]
  }

  ghost function Reported(cfg: Config, db: Db, owner: UserId, changes: seq<LicenseStatus>): nat {
    if changes == [] then 0
    else
      var init := changes[..|changes| - 1];
      var now := DbAfter(cfg, db, BulkHistory(owner, init));
      Reported(cfg, db, owner, init) + Commit(cfg, now, BulkStatus(owner, changes[|changes| - 1])).value.reply.count
  }

  lemma BulkHistoryStep(cfg: Config, db: Db, owner: UserId, changes: seq<LicenseStatus>)
    requires changes != []
    ensures var before := DbAfter(cfg, db, BulkHistory(owner, changes[..|changes| - 1]));
            DbAfter(cfg, db, BulkHistory(owner, changes))
            == before.(licenses := BulkUpdated(before.licenses, owner, changes[|changes| - 1]))
    ensures Committed(cfg, db, BulkHistory(owner, changes[..|changes| - 1])) ==> Committed(cfg, db, BulkHistory(owner, changes))
  {
    var init := BulkHistory(owner, changes[..|changes| - 1]);
    assert BulkHistory(owner, changes)[..|init|] == init;
  }

  function Settled(license: License, owner: UserId, changes: seq<LicenseStatus>): License {
    if license.owner == Some(owner) then license.(status := Settle(license.status, changes)) else license
  }

  lemma SettledStep(license: License, owner: UserId, changes: seq<LicenseStatus>, last: LicenseStatus)
    requires changes != [] && last == changes[|changes| - 1]
    ensures var before := Settled(license, owner, changes[..|changes| - 1]);
            Settled(license, owner, changes) == if IsBulkTarget(before, owner, last) then before.(status := last) else before
  {
  }

  /** After the sequence every key of the owner has settled, and nothing else has moved. */
  lemma {:induction false} BulkSettlesKeys(cfg: Config, db: Db, owner: UserId, changes: seq<LicenseStatus>)
    ensures Committed(cfg, db, BulkHistory(owner, changes))
    ensures var after := DbAfter(cfg, db, BulkHistory(owner, changes));
            && after.users == db.users && after.requests == db.requests && after.licenses.Keys == db.licenses.Keys
            && (forall l :: l in db.licenses ==> after.licenses[l] == Settled(db.licenses[l], owner, changes))
  {
    if changes == [] {
    } else {
      BulkSettlesKeys(cfg, db, owner, changes[..|changes| - 1]);
      BulkHistoryStep(cfg, db, owner, changes);
      var after := DbAfter(cfg, db, BulkHistory(owner, changes));
      forall l | l in db.licenses ensures l in after.licenses && after.licenses[l] == Settled(db.licenses[l], owner, changes) {
        SettledStep(db.licenses[l], owner, changes, changes[|changes| - 1]);
      }
    }
  }

  ghost function OwnedBy(db: Db, owner: UserId): set<LicenseId> {
    set l | l in db.licenses && db.licenses[l].owner == Some(owner)
  }

  /** The number of status changes over a set of keys. */
  ghost function SumChanges(db: Db, ids: set<LicenseId>, changes: seq<LicenseStatus>): nat
    requires ids <= db.licenses.Keys
  {
    if ids == {} then 0
    else
      var l :| l in ids;
      Changes(db.licenses[l].status, changes) + SumChanges(db, ids - {l}, changes)
  }

  lemma {:induction false} SumSplit(db: Db, ids: set<LicenseId>, changes: seq<LicenseStatus>, l: LicenseId)
    requires ids <= db.licenses.Keys && l in ids
    ensures SumChanges(db, ids, changes) == Changes(db.licenses[l].status, changes) + SumChanges(db, ids - {l}, changes)
  {
    var k :| k in ids
      && SumChanges(db, ids, changes) == Changes(db.licenses[k].status, changes) + SumChanges(db, ids - {k}, changes);
    if k != l {
      SumSplit(db, ids - {k}, changes, l);
      SumSplit(db, ids - {l}, changes, k);
      assert ids - {k} - {l} == ids - {l} - {k};
    }
  }

  /** The keys among `ids` that the last change alters. */
  ghost function LastHits(db: Db, ids: set<LicenseId>, changes: seq<LicenseStatus>): set<LicenseId>
    requires ids <= db.licenses.Keys && changes != []
  {
    set l | l in ids && Settle(db.licenses[l].status, changes) != Settle(db.licenses[l].status, changes[..|changes| - 1])
  }

  lemma {:induction false} SumStep(db: Db, ids: set<LicenseId>, changes: seq<LicenseStatus>)
    requires ids <= db.licenses.Keys && changes != []
    ensures SumChanges(db, ids, changes)
         == SumChanges(db, ids, changes[..|changes| - 1]) + |LastHits(db, ids, changes)|
  {
    if ids == {} {
      assert LastHits(db, ids, changes) == {};
    } else {
      var l :| l in ids;
      SumSplit(db, ids, changes, l);
      SumSplit(db, ids, changes[..|changes| - 1], l);
      SumStep(db, ids - {l}, changes);
      assert LastHits(db, ids - {l}, changes) == LastHits(db, ids, changes) - {l};
    }
  }

  lemma LastHitsAreTargets(cfg: Config, db: Db, owner: UserId, changes: seq<LicenseStatus>)
    requires changes != []
    ensures BulkTargets(DbAfter(cfg, db, BulkHistory(owner, changes[..|changes| - 1])).licenses, owner, changes[|changes| - 1])
         == LastHits(db, OwnedBy(db, owner), changes)
  {
    BulkSettlesKeys(cfg, db, owner, changes[..|changes| - 1]);
  }

  /** The reported counts add up to the total number of status changes of the owner's keys. */
  lemma {:induction false} BulkCountsAddUp(cfg: Config, db: Db, owner: UserId, changes: seq<LicenseStatus>)
    ensures Reported(cfg, db, owner, changes) == SumChanges(db, OwnedBy(db, owner), changes)
  {
    if changes == [] {
      NoChanges(db, OwnedBy(db, owner));
    } else {
      BulkCountsAddUp(cfg, db, owner, changes[..|changes| - 1]);
      SumStep(db, OwnedBy(db, owner), changes);
      LastHitsAreTargets(cfg, db, owner, changes);
    }
  }

  lemma {:induction false} NoChanges(db: Db, ids: set<LicenseId>)
    requires ids <= db.licenses.Keys
    ensures SumChanges(db, ids, []) == 0
  {
    if ids == {} {
    } else {
      var l :| l in ids;
      SumSplit(db, ids, [], l);
      NoChanges(db, ids - {l});
    }
  }
}
