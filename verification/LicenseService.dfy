/**
 The two public handlers of src/routes/licenses.rs over the rows as they are stored, keyed by activation id, one
 call at a time. Each method is proved against the lease tables of module Leases.
 */
module LicenseService {
  import opened Models
  import opened Leases
  import opened DeviceIds
  import Crypto
  import SeatHistory

  type Activations = map<ActivationId, Activation>

  // ----- activation rows as a lease table

  function SlotOf(row: Activation): Slot {
    Slot(row.licenseId, row.deviceHash)
  }

  function LeaseOf(row: Activation): Lease {
    Lease(row.lastSeenAt, row.revokedAt)
  }

  /** `leases` is the lease table of the rows; `index` names each slot's row, so no slot has two rows
      (`UNIQUE (license_id, device_id_hash)`). */
  ghost predicate Indexed(rows: Activations, leases: LeaseTable, index: map<Slot, ActivationId>) {
    && (forall id :: id in rows ==> SlotOf(rows[id]) in leases && SlotOf(rows[id]) in index && index[SlotOf(rows[id])] == id)
    && (forall p :: p in leases ==>
          p in index && index[p] in rows && SlotOf(rows[index[p]]) == p && leases[p] == LeaseOf(rows[index[p]]))
  }

  function ActiveRows(rows: Activations, l: LicenseId, cutoff: Time): set<ActivationId> {
    set id | id in rows && rows[id].licenseId == l && rows[id].revokedAt.None? && rows[id].lastSeenAt > cutoff
  }

  lemma {:induction false} DistinctSlots(rows: Activations, leases: LeaseTable, index: map<Slot, ActivationId>,
                                         ids: set<ActivationId>)
    requires Indexed(rows, leases, index) && ids <= rows.Keys
    ensures |set id | id in ids :: SlotOf(rows[id])| == |ids|
  {
    var slots := set id | id in ids :: SlotOf(rows[id]);
    if ids == {} {
      assert slots == {};
    } else {
      var x :| x in ids;
      DistinctSlots(rows, leases, index, ids - {x});
      var others := set id | id in ids - {x} :: SlotOf(rows[id]);
      assert slots == others + {SlotOf(rows[x])};
      assert SlotOf(rows[x]) !in others;
    }
  }

  /** The row count of the SQL query is the seat count of the lease table. */
  lemma CountsAgree(window: nat, rows: Activations, leases: LeaseTable, index: map<Slot, ActivationId>, l: LicenseId, now: Time)
    requires Indexed(rows, leases, index)
    ensures |ActiveRows(rows, l, now - window)| == LiveCount(window, leases, l, now)
  {
    var ids := ActiveRows(rows, l, now - window);
    var slots := set id | id in ids :: SlotOf(rows[id]);
    forall p | p in LiveSlots(window, leases, l, now) ensures p in slots {
      assert index[p] in ids;
    }
    assert slots == LiveSlots(window, leases, l, now);
    DistinctSlots(rows, leases, index, ids);
  }

  /** Excluding a row by its id is excluding its device. */
  lemma ExcludedCountsAgree(window: nat, rows: Activations, leases: LeaseTable, index: map<Slot, ActivationId>,
                            own: ActivationId, now: Time)
    requires Indexed(rows, leases, index) && own in rows
    ensures |ActiveRows(rows, rows[own].licenseId, now - window) - {own}|
         == OthersLive(window, leases, SlotOf(rows[own]), now)
  {
    var ids := ActiveRows(rows, rows[own].licenseId, now - window);
    CountsAgree(window, rows, leases, index, rows[own].licenseId, now);
    if own in ids {
      OthersOfLive(window, leases, SlotOf(rows[own]), now);
    } else {
      OthersOfIdle(window, leases, SlotOf(rows[own]), now);
      assert ids - {own} == ids;
    }
  }

  /** Row `id` is the slot's own row, or a new row for a slot that has none. */
  ghost predicate CanWrite(rows: Activations, leases: LeaseTable, id: ActivationId, slot: Slot) {
    if id in rows then SlotOf(rows[id]) == slot else slot !in leases
  }

  lemma RowWritten(rows: Activations, leases: LeaseTable, index: map<Slot, ActivationId>, id: ActivationId, row: Activation)
    requires Indexed(rows, leases, index) && CanWrite(rows, leases, id, SlotOf(row))
    ensures Indexed(rows[id := row], leases[SlotOf(row) := LeaseOf(row)], index[SlotOf(row) := id])
  {
  }

  // ----- responses

  /** `code` is None for "ok"; the message and the server time are left out. */
  datatype VerifyResponse = VerifyResponse(
    allowed: bool,
    code: Option<Refusal>,
    licenseId: Option<LicenseId>,
    keyPrefix: Option<string>,
    expiresAt: Option<Time>,
    maxDevices: Option<Positive>,
    activeDevices: Option<nat>,
    heartbeatAfter: nat)

  function Allowed(window: nat, l: LicenseId, license: License, activeDevices: nat): VerifyResponse {
    VerifyResponse(true, None, Some(l), Some(license.keyPrefix), license.expiresAt,
                   Some(license.maxDevices), Some(activeDevices), window / 2)
  }

  function Denied(window: nat, code: Refusal): VerifyResponse {
    VerifyResponse(false, Some(code), None, None, None, None, None, window / 2)
  }

  function DeniedWithLicense(window: nat, code: Refusal, l: LicenseId, license: License, activeDevices: Option<nat>)
    : VerifyResponse
  {
    VerifyResponse(false, Some(code), Some(l), Some(license.keyPrefix), license.expiresAt,
                   Some(license.maxDevices), activeDevices, window / 2)
  }

  /** The response says what the decision says, about the licence the key belongs to. */
  predicate Reports(window: nat, licenses: Licenses, d: Decision, r: VerifyResponse) {
    && r.heartbeatAfter == window / 2
    && r.allowed == d.Grant?
    && r.licenseId == (if d.Grant? then Some(d.slot.license) else d.license)
    && r.code == (if d.Grant? then None else Some(d.code))
    && (d.Deny? ==> r.activeDevices == d.counted)
    && (if r.licenseId.Some? then
          && r.licenseId.value in licenses
          && var license := licenses[r.licenseId.value];
             && r.keyPrefix == Some(license.keyPrefix) && r.expiresAt == license.expiresAt
             && r.maxDevices == Some(license.maxDevices)
        else r.keyPrefix == None && r.expiresAt == None && r.maxDevices == None)
  }

  // ----- request fields

  predicate ValidLengths(licenseKey: string, deviceId: string) {
    8 <= |licenseKey| <= 256 && 2 <= |deviceId| <= 512
  }

  lemma BareForms(deviceId: string)
    ensures forall id :: IsBare(id) && Pads(deviceId, id) ==> id == Trim(deviceId)
    ensures Trim(deviceId) == [] <==> IsBlank(deviceId)
  {
    forall id | IsBare(id) && Pads(deviceId, id) ensures id == Trim(deviceId) {
      TrimExactly(deviceId, id);
    }
    if IsBlank(deviceId) {
      BlankTrims(deviceId);
    } else {
      var before, after := TrimRemovesPadding(deviceId);
      assert Trim(deviceId) == [] ==> deviceId == before + after;
    }
  }

  /** Two spellings of a device id that differ in surrounding white space only are one device, to every call. */
  lemma PaddedIdsAreOneDevice(deviceId: string, before: string, after: string, deviceDigest: string -> Digest)
    requires IsBlank(before) && IsBlank(after)
    ensures deviceDigest(Trim(before + deviceId + after)) == deviceDigest(Trim(deviceId))
  {
    PaddingVanishes(before, deviceId, after);
  }

  /** The clock readings of one verify call, in the order they are taken. */
  datatype Readings = Readings(expiry: Time, live: Time, count: Time, recount: Time)

  /** What a verify past its field checks does to the tables and answers, given its decision. */
  ghost predicate Carried(window: nat, d: Decision, before: Tables, after: Tables, stamp: Time, recount: Time,
                          idTaken: bool, r: Result<VerifyResponse, AppError>)
  {
    if d.Deny? then
      r.Ok? && Reports(window, before.licenses, d, r.value) && after == before
    else if d.slot !in before.leases && idTaken then
      r == Err(Conflict) && after == before
    else
      && d.slot.license in before.licenses
      && after == Renew(before, d.slot, stamp)
      && r.Ok? && Reports(window, before.licenses, d, r.value)
      && r.value.activeDevices == Some(LiveCount(window, after.leases, d.slot.license, recount))
  }

  /** A release gives back the seat of an unrevoked device of the key's licence, and nothing else. */
  ghost predicate GaveBack(window: nat, keyHash: Digest, deviceHash: Digest, now: Time,
                           before: Tables, after: Tables, released: bool)
  {
    var found := Lookup(before.licenses, keyHash);
    && released == (found.Some? && Releasable(before, Slot(found.value, deviceHash)))
    && after == (if released then Release(window, before, Slot(found.value, deviceHash), now) else before)
  }

  /** What giving back a seat comes to: true exactly for an unrevoked device of the key's licence, whose row then was last
      seen a window and one second ago; nothing else changes. */
  lemma ReleasedExactly(window: nat, keyHash: Digest, deviceHash: Digest, now: Time, before: Tables, after: Tables,
                        released: bool, l: LicenseId)
    requires WellFormed(before) && GaveBack(window, keyHash, deviceHash, now, before, after, released)
    requires l in before.licenses && before.licenses[l].keyHash == keyHash
    ensures var slot := Slot(l, deviceHash);
            && (released <==> slot in before.leases && before.leases[slot].revokedAt == None)
            && after.licenses == before.licenses && after.leases.Keys == before.leases.Keys
            && (released ==> after.leases[slot] == Lease(now - window - 1, None))
            && (forall p :: p in before.leases && (!released || p != slot) ==> after.leases[p] == before.leases[p])
  {
    assert Lookup(before.licenses, keyHash) == Some(l);
  }

  /** Without a licence for the key nothing is given back. */
  lemma NothingToRelease(window: nat, keyHash: Digest, deviceHash: Digest, now: Time, before: Tables, after: Tables,
                         released: bool)
    requires GaveBack(window, keyHash, deviceHash, now, before, after, released)
    requires forall l :: l in before.licenses ==> before.licenses[l].keyHash != keyHash
    ensures !released && after == before
  {
    assert Lookup(before.licenses, keyHash) == None;
  }

  class Service {
    const window: nat
    const keyDigest: string -> Digest
    const deviceDigest: string -> Digest
    var licenses: Licenses
    var activations: Activations
    ghost var leases: LeaseTable
    ghost var index: map<Slot, ActivationId>

    ghost predicate Valid()
      reads this
    {
      Indexed(activations, leases, index) && WellFormed(View())
    }

    ghost function View(): (t: Tables)
      reads this
    {
      Tables(licenses, leases)
    }

    /** A service over the licences the back office has issued so far, with no device activated yet. */
    constructor (window: nat, keyDigest: string -> Digest, deviceDigest: string -> Digest, licenses: Licenses)
      requires UniqueHashes(licenses)
      ensures Valid() && View() == Tables(licenses, map[])
      ensures this.window == window && this.keyDigest == keyDigest && this.deviceDigest == deviceDigest
    {
      this.window, this.keyDigest, this.deviceDigest := window, keyDigest, deviceDigest;
      this.licenses, activations := licenses, map[];
      leases, index := map[], map[];
    }

    /** The back office changes the licence table between two calls. */
    method ChangeLicenses(changed: Licenses)
      requires Valid() && Evolves(licenses, changed)
      modifies this`licenses
      ensures Valid() && View() == old(View()).(licenses := changed)
    {
      licenses := changed;
    }

    method FindLicense(keyHash: Digest) returns (found: Option<LicenseId>)
      requires Valid()
      ensures found == Lookup(licenses, keyHash)
    {
      if l :| l in licenses && licenses[l].keyHash == keyHash {
        found := Some(l);
      } else {
        found := None;
      }
    }

    method FindActivation(slot: Slot) returns (found: Option<ActivationId>)
      requires Valid()
      ensures if slot in leases then found == Some(index[slot]) else found == None
    {
      assert slot in leases ==> index[slot] in activations && SlotOf(activations[index[slot]]) == slot;
      if id :| id in activations && SlotOf(activations[id]) == slot {
        found := Some(id);
      } else {
        found := None;
      }
    }

    method ActiveDeviceCount(l: LicenseId, now: Time) returns (n: nat)
      requires Valid()
      ensures n == LiveCount(window, leases, l, now)
    {
      var cutoff := now - window;
      n := |ActiveRows(activations, l, cutoff)|;
      CountsAgree(window, activations, leases, index, l, now);
    }

    method ActiveDeviceCountExcluding(l: LicenseId, excluded: ActivationId, now: Time) returns (n: nat)
      requires Valid() && excluded in activations && activations[excluded].licenseId == l
      ensures n == OthersLive(window, leases, SlotOf(activations[excluded]), now)
    {
      var cutoff := now - window;
      n := |ActiveRows(activations, l, cutoff) - {excluded}|;
      ExcludedCountsAgree(window, activations, leases, index, excluded, now);
    }

    /** One INSERT or UPDATE of an activation row. */
    method WriteRow(id: ActivationId, row: Activation)
      requires Valid() && row.licenseId in licenses && CanWrite(activations, leases, id, SlotOf(row))
      modifies this`activations, this`leases, this`index
      ensures Valid() && leases == old(leases)[SlotOf(row) := LeaseOf(row)] && activations == old(activations)[id := row]
    {
      RowWritten(activations, leases, index, id, row);
      activations := activations[id := row];
      leases, index := leases[SlotOf(row) := LeaseOf(row)], index[SlotOf(row) := id];
    }

    /** The statements that write a granted device's row and stamp its licence. */
    method WriteLease(id: ActivationId, row: Activation)
      requires Valid() && row.licenseId in licenses && row.revokedAt.None?
      requires CanWrite(activations, leases, id, SlotOf(row))
      requires id in activations ==> activations[id].revokedAt.None?
      modifies this`activations, this`licenses, this`leases, this`index
      ensures Valid() && View() == Renew(old(View()), SlotOf(row), row.lastSeenAt)
    {
      RenewKeepsRules(View(), SlotOf(row), row.lastSeenAt);
      WriteRow(id, row);
      licenses := licenses[row.licenseId := licenses[row.licenseId].(lastVerifiedAt := Some(row.lastSeenAt))];
    }

    /** The counting paths of `verify_license`, for an unrevoked device of an active, unexpired licence. */
    method TakeSeat(l: LicenseId, deviceHash: Digest, existing: Option<ActivationId>, clock: Readings, stamp: Time,
                    newId: ActivationId, ghost keyHash: Digest)
      returns (r: Result<VerifyResponse, AppError>)
      requires Valid() && Screen(View(), keyHash, deviceHash, clock.expiry).None? && Lookup(licenses, keyHash) == Some(l)
      requires existing == if Slot(l, deviceHash) in leases then Some(index[Slot(l, deviceHash)]) else None
      modifies this`activations, this`licenses, this`leases, this`index
      ensures Valid()
      ensures Carried(window, ThreePath(window, old(View()), keyHash, deviceHash, clock.expiry, clock.live, clock.count),
                      old(View()), View(), stamp, clock.recount, newId in old(activations), r)
    {
      var license := licenses[l];
      if existing.Some? {
        var activation := activations[existing.value];
        var isCurrent := activation.lastSeenAt > clock.live - window;
        if !isCurrent {
          var others := ActiveDeviceCountExcluding(l, existing.value, clock.count);
          if others >= license.maxDevices {
            return Ok(DeniedWithLicense(window, DeviceLimitReached, l, license, Some(others)));
          }
        }
        WriteLease(existing.value, activation.(lastSeenAt := stamp));
      } else {
        var activeDevices := ActiveDeviceCount(l, clock.count);
        if activeDevices >= license.maxDevices {
          return Ok(DeniedWithLicense(window, DeviceLimitReached, l, license, Some(activeDevices)));
        }
        if newId in activations {
          return Err(Conflict);
        }
        WriteLease(newId, Activation(l, deviceHash, stamp, None));
      }
      var activeDevices := ActiveDeviceCount(l, clock.recount);
      return Ok(Allowed(window, l, license, activeDevices));
    }

    /** `verify_license`. The effect on the tables and the response are those of the three-path decision on the tables
        as they were; a request that fails its checks, or an insert that meets its own id, changes nothing. */
    method Verify(licenseKey: string, deviceId: string, clock: Readings, stamp: Time, newId: ActivationId)
      returns (r: Result<VerifyResponse, AppError>)
      requires Valid()
      modifies this`activations, this`licenses, this`leases, this`index
      ensures Valid()
      ensures |licenseKey| < 8 || |licenseKey| > 256 || |deviceId| < 2 || |deviceId| > 512
          <==> r == Err(Validation)
      ensures r == Err(Validation) ==> View() == old(View())
      ensures ValidLengths(licenseKey, deviceId) && (Crypto.Normalize(licenseKey) == [] || IsBlank(deviceId))
          <==> r == Err(BadRequest)
      ensures r == Err(BadRequest) ==> View() == old(View())
      ensures r.Ok? ==> 2 * r.value.heartbeatAfter <= window <= 2 * r.value.heartbeatAfter + 1
      ensures ValidLengths(licenseKey, deviceId) && Crypto.Normalize(licenseKey) != [] && Trim(deviceId) != [] ==>
          Carried(window, ThreePath(window, old(View()), keyDigest(Crypto.Normalize(licenseKey)), deviceDigest(Trim(deviceId)),
                                    clock.expiry, clock.live, clock.count),
                  old(View()), View(), stamp, clock.recount, newId in old(activations), r)
      ensures forall id :: ValidLengths(licenseKey, deviceId) && Crypto.Normalize(licenseKey) != [] && id != []
                           && IsBare(id) && Pads(deviceId, id) ==>
          Carried(window, ThreePath(window, old(View()), keyDigest(Crypto.Normalize(licenseKey)), deviceDigest(id),
                                    clock.expiry, clock.live, clock.count),
                  old(View()), View(), stamp, clock.recount, newId in old(activations), r)
    {
      BareForms(deviceId);
      if !ValidLengths(licenseKey, deviceId) {
        return Err(Validation);
      }
      var key, device := Crypto.Normalize(licenseKey), Trim(deviceId);
      if key == [] || device == [] {
        return Err(BadRequest);
      }
      var keyHash, deviceHash := keyDigest(key), deviceDigest(device);
      var found := FindLicense(keyHash);
      if found.None? {
        return Ok(Denied(window, InvalidKey));
      }
      var l := found.value;
      var license := licenses[l];
      if license.status != Active {
        return Ok(DeniedWithLicense(window, LicenseNotActive, l, license, None));
      }
      if license.expiresAt.Some? && license.expiresAt.value <= clock.expiry {
        return Ok(DeniedWithLicense(window, LicenseExpired, l, license, None));
      }
      var existing := FindActivation(Slot(l, deviceHash));
      if existing.Some? && activations[existing.value].revokedAt.Some? {
        return Ok(DeniedWithLicense(window, DeviceRevoked, l, license, None));
      }
      r := TakeSeat(l, deviceHash, existing, clock, stamp, newId, keyHash);
    }

    /** The one UPDATE statement of `release_license`. */
    method Backdate(keyHash: Digest, deviceHash: Digest, now: Time) returns (released: bool)
      requires Valid()
      modifies this`activations, this`leases, this`index
      ensures Valid()
      ensures GaveBack(window, keyHash, deviceHash, now, old(View()), View(), released)
    {
      var staleAt := now - (window + 1);
      var found := FindLicense(keyHash);
      if found.None? {
        return false;
      }
      var existing := FindActivation(Slot(found.value, deviceHash));
      if existing.None? || activations[existing.value].revokedAt.Some? {
        return false;
      }
      WriteRow(existing.value, activations[existing.value].(lastSeenAt := staleAt));
      return true;
    }

    /** `release_license`. */
    method Release(licenseKey: string, deviceId: string, now: Time) returns (r: Result<bool, AppError>)
      requires Valid()
      modifies this`activations, this`leases, this`index
      ensures Valid()
      ensures |licenseKey| < 8 || |licenseKey| > 256 || |deviceId| < 2 || |deviceId| > 512
          <==> r == Err(Validation)
      ensures r.Err? ==> r == Err(Validation) && View() == old(View())
      ensures ValidLengths(licenseKey, deviceId) ==>
          r.Ok? && GaveBack(window, keyDigest(Crypto.Normalize(licenseKey)), deviceDigest(Trim(deviceId)), now,
                            old(View()), View(), r.value)
      ensures forall id :: ValidLengths(licenseKey, deviceId) && IsBare(id) && Pads(deviceId, id) ==>
          r.Ok? && GaveBack(window, keyDigest(Crypto.Normalize(licenseKey)), deviceDigest(id), now,
                            old(View()), View(), r.value)
    {
      BareForms(deviceId);
      if !ValidLengths(licenseKey, deviceId) {
        return Err(Validation);
      }
      var released := Backdate(keyDigest(Crypto.Normalize(licenseKey)), deviceDigest(Trim(deviceId)), now);
      return Ok(released);
    }
  }

  // ----- what the atomic handlers promise

  /** The tables after an atomic verify with decision `d`. */
  ghost function AfterDecision(t: Tables, d: Decision, stamp: Time): Tables {
    if d.Grant? && d.slot.license in t.licenses then Renew(t, d.slot, stamp) else t
  }

  lemma GrantEffect(window: nat, t: Tables, slot: Slot, stamp: Time, now: Time)
    requires WellFormed(t) && SeatBound(window, t, now) && slot.license in t.licenses
    requires OthersLive(window, t.leases, slot, now) < t.licenses[slot.license].maxDevices
    requires slot in t.leases ==> t.leases[slot].revokedAt.None?
    ensures WellFormed(Renew(t, slot, stamp)) && SeatBound(window, Renew(t, slot, stamp), now)
    ensures stamp > now - window ==> slot in LiveSlots(window, Renew(t, slot, stamp).leases, slot.license, now)
  {
    RenewKeepsBound(window, t, slot, stamp, now);
    RenewKeepsRules(t, slot, stamp);
  }

  /** One verify from within the seat bound: the decision is the lease rule's, the bound is kept, and an allowed device
      with a stamp inside the window is live afterwards. */
  lemma AtomicVerify(window: nat, t: Tables, keyHash: Digest, device: Digest, clock: Readings, stamp: Time, d: Decision)
    requires WellFormed(t) && SeatBound(window, t, clock.live) && clock.live <= clock.count
    requires d == ThreePath(window, t, keyHash, device, clock.expiry, clock.live, clock.count)
    ensures d == LeaseRule(window, t, keyHash, device, clock.expiry, clock.count)
    ensures WellFormed(AfterDecision(t, d, stamp)) && SeatBound(window, AfterDecision(t, d, stamp), clock.count)
    ensures d.Grant? && stamp > clock.count - window ==>
        d.slot in LiveSlots(window, AfterDecision(t, d, stamp).leases, d.slot.license, clock.count)
  {
    HandlerRefinesRule(window, t, keyHash, device, clock.expiry, clock.live, clock.count);
    TimeKeepsBound(window, t, clock.live, clock.count);
    if d.Grant? {
      GrantEffect(window, t, d.slot, stamp, clock.count);
    }
  }

  // ----- the calls as events of a history

  /** A verify call that is served from within the seat bound is one event of a legal history, taking effect at the
      clock of its count. */
  lemma VerifyIsAnEvent(window: nat, t: Tables, keyHash: Digest, device: Digest, clock: Readings, stamp: Time, d: Decision,
                        tx: nat)
    returns (e: SeatHistory.Event)
    requires WellFormed(t) && SeatBound(window, t, clock.live) && clock.expiry <= clock.live <= clock.count
    requires d == ThreePath(window, t, keyHash, device, clock.expiry, clock.live, clock.count)
    ensures e == SeatHistory.Decided(tx, keyHash, device, clock.expiry, clock.count, stamp, d)
    ensures SeatHistory.EventOk(window, t, e) && SeatHistory.After(window, t, e) == AfterDecision(t, d, stamp)
  {
    e := SeatHistory.Decided(tx, keyHash, device, clock.expiry, clock.count, stamp, d);
    HandlerRefinesRule(window, t, keyHash, device, clock.expiry, clock.live, clock.count);
  }

  /** So is every release call, whether it finds a seat to give back or not. */
  lemma ReleaseIsAnEvent(window: nat, t: Tables, t': Tables, keyHash: Digest, device: Digest, now: Time, released: bool,
                         tx: nat)
    returns (e: SeatHistory.Event)
    requires GaveBack(window, keyHash, device, now, t, t', released)
    ensures e.at == now && SeatHistory.EventOk(window, t, e) && SeatHistory.After(window, t, e) == t'
    ensures if released then e.Released? && e.slot.device == device else e == SeatHistory.ReleaseMissed(tx, keyHash, device, now)
  {
    if released {
      e := SeatHistory.Released(tx, keyHash, Slot(Lookup(t.licenses, keyHash).value, device), now, now);
    } else {
      e := SeatHistory.ReleaseMissed(tx, keyHash, device, now);
    }
  }

  /** Conversely every event of a legal history is such a call, served at the event's own clock: each decision is the
      three-path one, each release gives back what the call would, and all else is a change of the licence table. */
  lemma EventsAreCalls(window: nat, t: Tables, start: Time, h: seq<SeatHistory.Event>, i: nat)
    requires SeatHistory.Good(window, t, start) && SeatHistory.Legal(window, t, start, h) && i < |h|
    ensures var before, after := SeatHistory.Replay(window, t, h[..i]), SeatHistory.Replay(window, t, h[..i + 1]);
            match h[i]
            case Decided(_, keyHash, device, expiryAt, at, stamp, d) =>
              d == ThreePath(window, before, keyHash, device, expiryAt, at, at) && after == AfterDecision(before, d, stamp)
            case Released(_, keyHash, slot, readAt, _) =>
              GaveBack(window, keyHash, slot.device, readAt, before, after, true)
            case ReleaseMissed(_, keyHash, device, at) => GaveBack(window, keyHash, device, at, before, after, false)
            case _ => after.leases == before.leases && Evolves(before.licenses, after.licenses)
  {
    var before, e := SeatHistory.Replay(window, t, h[..i]), h[i];
    SeatHistory.AtEvent(window, t, start, h, i);
    SeatHistory.HistoryKeepsBound(window, t, start, h[..i], e.at);
    if e.Decided? {
      HandlerRefinesRule(window, before, e.keyHash, e.device, e.expiryAt, e.at, e.at);
    } else if e.StatusSet? {
      SeatHistory.StatusEvolves(before.licenses, e.l, e.status);
    }
  }
}
