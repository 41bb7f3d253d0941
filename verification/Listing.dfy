/**
 The grouped LEFT JOIN behind `list_licenses` (src/routes/admin.rs) and `my_licenses` (src/routes/reseller.rs), before
 ordering and paging, and the simple count of src/routes/licenses.rs it has to agree with.
 */
module Listing {
  import opened Models
  import opened Leases
  import opened LicenseService

  datatype Rows = Rows(users: map<UserId, User>, licenses: Licenses, activations: Activations)

  /** One row of the joined table; None is a side padded with NULLs. */
  datatype Joined = Joined(license: LicenseId, owner: Option<UserId>, activation: Option<ActivationId>)

  datatype GroupKey = GroupKey(license: LicenseId, ownerEmail: Option<string>)

  datatype Listed = Listed(id: LicenseId, ownerEmail: Option<string>, activeDevices: nat)

  // ----- the query

  /** LEFT JOIN keeps a row without a match once. */
  function LeftJoin<T>(matches: set<T>): set<Option<T>> {
    if matches == {} then {None} else set m | m in matches :: Some(m)
  }

  function OwnersOf(t: Rows, l: LicenseId): set<UserId>
    requires l in t.licenses
  {
    set u | u in t.users && t.licenses[l].owner == Some(u)
  }

  function DevicesOf(t: Rows, l: LicenseId): set<ActivationId> {
    set a | a in t.activations && t.activations[a].licenseId == l
  }

  /** FROM and WHERE: the joined rows of the licences that pass the filter. */
  function JoinedRows(t: Rows, passing: set<LicenseId>): set<Joined>
    requires passing <= t.licenses.Keys
  {
    set l, o, a | l in passing && o in LeftJoin(OwnersOf(t, l)) && a in LeftJoin(DevicesOf(t, l)) :: Joined(l, o, a)
  }

  function EmailOf(t: Rows, owner: Option<UserId>): Option<string> {
    if owner.Some? && owner.value in t.users then Some(t.users[owner.value].email) else None
  }

  function KeyOf(t: Rows, j: Joined): GroupKey {
    GroupKey(j.license, EmailOf(t, j.owner))
  }

  /** `CASE WHEN da.revoked_at IS NULL AND da.last_seen_at > cutoff THEN 1 END` is not NULL. */
  predicate IsCounted(t: Rows, j: Joined, cutoff: Time) {
    && j.activation.Some? && j.activation.value in t.activations
    && t.activations[j.activation.value].revokedAt.None?
    && t.activations[j.activation.value].lastSeenAt > cutoff
  }

  /** GROUP BY lk.id, owner.email: one listed row per group, counting the group's rows. */
  function Grouped(t: Rows, joined: set<Joined>, cutoff: Time): set<Listed> {
    set k | k in (set j | j in joined :: KeyOf(t, j)) ::
      Listed(k.license, k.ownerEmail, |set j | j in joined && KeyOf(t, j) == k && IsCounted(t, j, cutoff)|)
  }

  function AdminFilter(t: Rows, owner: Option<UserId>, status: Option<LicenseStatus>): set<LicenseId> {
    set l | l in t.licenses
      && (owner.None? || t.licenses[l].owner == owner)
      && (status.None? || t.licenses[l].status == status.value)
  }

  function OwnFilter(t: Rows, user: UserId, status: Option<LicenseStatus>): set<LicenseId> {
    set l | l in t.licenses && t.licenses[l].owner == Some(user) && (status.None? || t.licenses[l].status == status.value)
  }

  function ListLicenses(t: Rows, owner: Option<UserId>, status: Option<LicenseStatus>, cutoff: Time): set<Listed> {
    Grouped(t, JoinedRows(t, AdminFilter(t, owner, status)), cutoff)
  }

  function MyLicenses(t: Rows, user: UserId, status: Option<LicenseStatus>, cutoff: Time): set<Listed> {
    Grouped(t, JoinedRows(t, OwnFilter(t, user, status)), cutoff)
  }

  // ----- one group per licence

  /** The row a listing owes to a licence. */
  function Entry(t: Rows, l: LicenseId, cutoff: Time): Listed
    requires l in t.licenses
  {
    Listed(l, EmailOf(t, t.licenses[l].owner), |ActiveRows(t.activations, l, cutoff)|)
  }

  /** A licence has at most one owner, so the first join multiplies nothing. */
  function OwnerSide(t: Rows, l: LicenseId): Option<UserId>
    requires l in t.licenses
  {
    if t.licenses[l].owner.Some? && t.licenses[l].owner.value in t.users then t.licenses[l].owner else None
  }

  lemma OneOwner(t: Rows, l: LicenseId)
    requires l in t.licenses
    ensures LeftJoin(OwnersOf(t, l)) == {OwnerSide(t, l)}
  {
    var owners := OwnersOf(t, l);
    if OwnerSide(t, l).Some? {
      assert owners == {OwnerSide(t, l).value};
    } else {
      assert owners == {};
    }
  }

  lemma OneKey(t: Rows, passing: set<LicenseId>, j: Joined)
    requires passing <= t.licenses.Keys && j in JoinedRows(t, passing)
    ensures j.license in passing && j.owner == OwnerSide(t, j.license) && j.activation in LeftJoin(DevicesOf(t, j.license))
    ensures KeyOf(t, j) == GroupKey(j.license, EmailOf(t, t.licenses[j.license].owner))
  {
    OneOwner(t, j.license);
  }

  lemma HasGroup(t: Rows, passing: set<LicenseId>, l: LicenseId)
    requires passing <= t.licenses.Keys && l in passing
    ensures exists j :: j in JoinedRows(t, passing) && KeyOf(t, j) == GroupKey(l, EmailOf(t, t.licenses[l].owner))
  {
    OneOwner(t, l);
    var devices := DevicesOf(t, l);
    var a := if a :| a in devices then Some(a) else None;
    assert a in LeftJoin(devices);
    var j := Joined(l, OwnerSide(t, l), a);
    assert j in JoinedRows(t, passing);
    OneKey(t, passing, j);
  }

  lemma {:induction false} ImageSize(l: LicenseId, owner: Option<UserId>, ids: set<ActivationId>)
    ensures |set a | a in ids :: Joined(l, owner, Some(a))| == |ids|
  {
    var image := set a | a in ids :: Joined(l, owner, Some(a));
    if ids == {} {
      assert image == {};
    } else {
      var x :| x in ids;
      var rest := set a | a in ids - {x} :: Joined(l, owner, Some(a));
      ImageSize(l, owner, ids - {x});
      assert image == rest + {Joined(l, owner, Some(x))};
      assert Joined(l, owner, Some(x)) !in rest;
    }
  }

  /** The counted rows of a licence's group are its active rows, each once. */
  lemma GroupCount(t: Rows, passing: set<LicenseId>, l: LicenseId, cutoff: Time)
    requires passing <= t.licenses.Keys && l in passing
    ensures var k := GroupKey(l, EmailOf(t, t.licenses[l].owner));
            |set j | j in JoinedRows(t, passing) && KeyOf(t, j) == k && IsCounted(t, j, cutoff)|
            == |ActiveRows(t.activations, l, cutoff)|
  {
    var k := GroupKey(l, EmailOf(t, t.licenses[l].owner));
    var joined, active := JoinedRows(t, passing), ActiveRows(t.activations, l, cutoff);
    var counted := set j | j in joined && KeyOf(t, j) == k && IsCounted(t, j, cutoff);
    var image := set a | a in active :: Joined(l, OwnerSide(t, l), Some(a));
    forall j | j in counted ensures j in image {
      OneKey(t, passing, j);
      assert j.activation.value in DevicesOf(t, l);
      assert j.activation.value in active;
    }
    forall a | a in active ensures Joined(l, OwnerSide(t, l), Some(a)) in counted {
      OneOwner(t, l);
      assert a in DevicesOf(t, l);
      assert Joined(l, OwnerSide(t, l), Some(a)) in joined;
      OneKey(t, passing, Joined(l, OwnerSide(t, l), Some(a)));
    }
    assert counted == image;
    ImageSize(l, OwnerSide(t, l), active);
  }

  lemma GroupedIsExact(t: Rows, passing: set<LicenseId>, cutoff: Time)
    requires passing <= t.licenses.Keys
    ensures Grouped(t, JoinedRows(t, passing), cutoff) == set l | l in passing :: Entry(t, l, cutoff)
  {
    var joined := JoinedRows(t, passing);
    var listed, expected := Grouped(t, joined, cutoff), set l | l in passing :: Entry(t, l, cutoff);
    forall e | e in listed ensures e in expected {
      var k :| k in (set j | j in joined :: KeyOf(t, j))
        && e == Listed(k.license, k.ownerEmail, |set j | j in joined && KeyOf(t, j) == k && IsCounted(t, j, cutoff)|);
      var j :| j in joined && KeyOf(t, j) == k;
      OneKey(t, passing, j);
      GroupCount(t, passing, k.license, cutoff);
      assert e == Entry(t, k.license, cutoff);
    }
    forall l | l in passing ensures Entry(t, l, cutoff) in listed {
      var k := GroupKey(l, EmailOf(t, t.licenses[l].owner));
      HasGroup(t, passing, l);
      GroupCount(t, passing, l, cutoff);
      assert k in (set j | j in joined :: KeyOf(t, j));
    }
  }

  // ----- main results

  /** The licence has the owner and the status the query asks for, where it asks for one. */
  predicate Asked(license: License, owner: Option<UserId>, status: Option<LicenseStatus>) {
    && (owner == None || license.owner == owner)
    && (status == None || Some(license.status) == status)
  }

  /** The row shows the e-mail of the licence's owner, and none for a licence without an owner. */
  ghost predicate NamesOwner(t: Rows, e: Listed)
    requires e.id in t.licenses
  {
    && (t.licenses[e.id].owner == None ==> e.ownerEmail == None)
    && (forall u :: u in t.users && t.licenses[e.id].owner == Some(u) ==> e.ownerEmail == Some(t.users[u].email))
  }

  lemma HasEntry(t: Rows, passing: set<LicenseId>, listed: set<Listed>, l: LicenseId, cutoff: Time)
    requires passing <= t.licenses.Keys && listed == set k | k in passing :: Entry(t, k, cutoff)
    requires l in passing
    ensures exists e :: e in listed && e.id == l
  {
    assert Entry(t, l, cutoff) in listed;
  }

  lemma IsEntry(t: Rows, passing: set<LicenseId>, listed: set<Listed>, e: Listed, cutoff: Time)
    requires passing <= t.licenses.Keys && listed == set k | k in passing :: Entry(t, k, cutoff)
    requires e in listed
    ensures e.id in passing && e == Entry(t, e.id, cutoff)
  {
  }

  lemma EntryIsRight(t: Rows, l: LicenseId, window: nat, now: Time, leases: LeaseTable, index: map<Slot, ActivationId>)
    requires l in t.licenses && Indexed(t.activations, leases, index)
    ensures NamesOwner(t, Entry(t, l, now - window))
    ensures Entry(t, l, now - window).activeDevices == LiveCount(window, leases, l, now)
  {
    CountsAgree(window, t.activations, leases, index, l, now);
  }

  /** One row for each licence the query asks for and no other row; each row names the owner's e-mail, if the licence has
      an owner, and its `active_devices` is the count a verify call would make at the same cutoff. */
  ghost predicate ExactListing(t: Rows, owner: Option<UserId>, status: Option<LicenseStatus>, window: nat,
                               leases: LeaseTable, now: Time, listed: set<Listed>)
  {
    && (forall e :: e in listed ==>
          && e.id in t.licenses && Asked(t.licenses[e.id], owner, status)
          && e.activeDevices == LiveCount(window, leases, e.id, now) && NamesOwner(t, e))
    && (forall l :: l in t.licenses && Asked(t.licenses[l], owner, status) ==> exists e :: e in listed && e.id == l)
    && (forall d, e :: d in listed && e in listed && d.id == e.id ==> d == e)
  }

  lemma EntriesAreExact(t: Rows, owner: Option<UserId>, status: Option<LicenseStatus>, window: nat, now: Time,
                        leases: LeaseTable, index: map<Slot, ActivationId>, passing: set<LicenseId>, listed: set<Listed>)
    requires Indexed(t.activations, leases, index)
    requires passing == set l | l in t.licenses && Asked(t.licenses[l], owner, status)
    requires listed == set l | l in passing :: Entry(t, l, now - window)
    ensures ExactListing(t, owner, status, window, leases, now, listed)
  {
    forall l | l in t.licenses && Asked(t.licenses[l], owner, status) ensures exists e :: e in listed && e.id == l {
      HasEntry(t, passing, listed, l, now - window);
    }
    forall e | e in listed
      ensures e.id in t.licenses && Asked(t.licenses[e.id], owner, status) && e == Entry(t, e.id, now - window)
      ensures e.activeDevices == LiveCount(window, leases, e.id, now) && NamesOwner(t, e)
    {
      IsEntry(t, passing, listed, e, now - window);
      EntryIsRight(t, e.id, window, now, leases, index);
    }
  }

  lemma FilterIsAsked(t: Rows, owner: Option<UserId>, status: Option<LicenseStatus>)
    ensures AdminFilter(t, owner, status) == set l | l in t.licenses && Asked(t.licenses[l], owner, status)
  {
  }

  /** The administrator's listing is exact. */
  lemma ListingIsExact(t: Rows, owner: Option<UserId>, status: Option<LicenseStatus>, window: nat, now: Time,
                       leases: LeaseTable, index: map<Slot, ActivationId>)
    requires Indexed(t.activations, leases, index)
    ensures ExactListing(t, owner, status, window, leases, now, ListLicenses(t, owner, status, now - window))
  {
    var passing := AdminFilter(t, owner, status);
    FilterIsAsked(t, owner, status);
    GroupedIsExact(t, passing, now - window);
    EntriesAreExact(t, owner, status, window, now, leases, index, passing, ListLicenses(t, owner, status, now - window));
  }

  /** A reseller sees exactly the administrator's rows of the licences the reseller owns. */
  lemma OwnListingIsFiltered(t: Rows, user: UserId, status: Option<LicenseStatus>, cutoff: Time)
    ensures MyLicenses(t, user, status, cutoff)
         == set e | e in ListLicenses(t, None, status, cutoff) && e.id in t.licenses && t.licenses[e.id].owner == Some(user)
    ensures MyLicenses(t, user, status, cutoff) == ListLicenses(t, Some(user), status, cutoff)
  {
    GroupedIsExact(t, OwnFilter(t, user, status), cutoff);
    GroupedIsExact(t, AdminFilter(t, None, status), cutoff);
    assert OwnFilter(t, user, status) == AdminFilter(t, Some(user), status);
    assert OwnFilter(t, user, status) == set l | l in AdminFilter(t, None, status) && t.licenses[l].owner == Some(user);
  }
}
