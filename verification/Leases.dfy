/**
 The rule behind src/routes/licenses.rs. A device holds a seat on a licence while its activation row is
 unrevoked and was seen within the heartbeat window. `ThreePath` is the decision the handler computes;
 `LeaseRule` is the simple rule it stands for.
 */
module Leases {
  import opened Models

  /** `UNIQUE (license_id, device_id_hash)` makes the pair a key of the activation table. */
  datatype Slot = Slot(license: LicenseId, device: Digest)
  datatype Lease = Lease(lastSeen: Time, revokedAt: Option<Time>)

  type Licenses = map<LicenseId, License>
  type LeaseTable = map<Slot, Lease>

  datatype Tables = Tables(licenses: Licenses, leases: LeaseTable)

  /** The `code` of a refusal. */
  datatype Refusal = InvalidKey | LicenseNotActive | LicenseExpired | DeviceRevoked | DeviceLimitReached

  /** `counted` is the `active_devices` field of the refusal. */
  datatype Decision =
    | Deny(code: Refusal, license: Option<LicenseId>, counted: Option<nat>)
    | Grant(slot: Slot)

  // ----- live seats

  /** `revoked_at IS NULL AND last_seen_at > now - window`. */
  predicate Live(window: nat, row: Lease, now: Time) {
    row.revokedAt.None? && row.lastSeen > now - window
  }

  function LiveSlots(window: nat, leases: LeaseTable, license: LicenseId, now: Time): (s: set<Slot>) {
    set p | p in leases && p.license == license && Live(window, leases[p], now)
  }

  /** What `active_device_count` counts. */
  function LiveCount(window: nat, leases: LeaseTable, license: LicenseId, now: Time): nat {
    |LiveSlots(window, leases, license, now)|
  }

  /** What `active_device_count_excluding` counts when the excluded row is the device's own. */
  function OthersLive(window: nat, leases: LeaseTable, slot: Slot, now: Time): nat {
    |LiveSlots(window, leases, slot.license, now) - {slot}|
  }

  predicate Expired(license: License, now: Time) {
    license.expiresAt.Some? && license.expiresAt.value <= now
  }

  // ----- the two decisions

  /** The checks that come before any counting, in the handler's order; None means "go on". */
  ghost function Screen(t: Tables, keyHash: Digest, device: Digest, expiryAt: Time): (r: Option<Decision>)
    ensures r.None? ==> Lookup(t.licenses, keyHash).Some?
  {
    var found := Lookup(t.licenses, keyHash);
    if found.None? then Some(Deny(InvalidKey, None, None))
    else
      var license, slot := t.licenses[found.value], Slot(found.value, device);
      if license.status != Active then Some(Deny(LicenseNotActive, found, None))
      else if Expired(license, expiryAt) then Some(Deny(LicenseExpired, found, None))
      else if slot in t.leases && t.leases[slot].revokedAt.Some? then Some(Deny(DeviceRevoked, found, None))
      else None
  }

  /** The handler: a live device is waved through, a stale one counts the others, a new one counts all.
      Each clock reading is its own argument. */
  ghost function ThreePath(window: nat, t: Tables, keyHash: Digest, device: Digest,
                           expiryAt: Time, liveAt: Time, countAt: Time): Decision
  {
    var screened := Screen(t, keyHash, device, expiryAt);
    if screened.Some? then screened.value
    else
      var l := Lookup(t.licenses, keyHash).value;
      var slot, max := Slot(l, device), t.licenses[l].maxDevices;
      if slot in t.leases then
        if t.leases[slot].lastSeen > liveAt - window then Grant(slot)
        else
          var others := OthersLive(window, t.leases, slot, countAt);
          if others >= max then Deny(DeviceLimitReached, Some(l), Some(others)) else Grant(slot)
      else
        var all := LiveCount(window, t.leases, l, countAt);
        if all >= max then Deny(DeviceLimitReached, Some(l), Some(all)) else Grant(slot)
  }

  /** The rule: a device gets a seat exactly when fewer than `max_devices` other devices hold one. */
  ghost function LeaseRule(window: nat, t: Tables, keyHash: Digest, device: Digest,
                           expiryAt: Time, now: Time): Decision
  {
    var screened := Screen(t, keyHash, device, expiryAt);
    if screened.Some? then screened.value
    else
      var l := Lookup(t.licenses, keyHash).value;
      var slot := Slot(l, device);
      var others := OthersLive(window, t.leases, slot, now);
      if others >= t.licenses[l].maxDevices then Deny(DeviceLimitReached, Some(l), Some(others)) else Grant(slot)
  }

  // ----- the two writes

  /** Renew the device's lease and stamp the licence; `stamp` is the database's CURRENT_TIMESTAMP. */
  function Renew(t: Tables, slot: Slot, stamp: Time): Tables
    requires slot.license in t.licenses
  {
    var row := t.licenses[slot.license].(lastVerifiedAt := Some(stamp));
    Tables(t.licenses[slot.license := row],
           t.leases[slot := Lease(stamp, if slot in t.leases then t.leases[slot].revokedAt else None)])
  }

  /** What a release at clock reading `readAt` writes: one second more than a window ago. */
  function StaleStamp(window: nat, readAt: Time): Time {
    readAt - (window + 1)
  }

  predicate Releasable(t: Tables, slot: Slot) {
    slot in t.leases && t.leases[slot].revokedAt.None?
  }

  function Release(window: nat, t: Tables, slot: Slot, readAt: Time): Tables
    requires Releasable(t, slot)
  {
    t.(leases := t.leases[slot := t.leases[slot].(lastSeen := StaleStamp(window, readAt))])
  }

  // ----- invariants of the tables

  /** Foreign key and uniqueness rules of the schema. */
  ghost predicate WellFormed(t: Tables) {
    UniqueHashes(t.licenses) && forall p :: p in t.leases ==> p.license in t.licenses
  }

  ghost predicate SeatBound(window: nat, t: Tables, now: Time) {
    forall l :: l in t.licenses ==> LiveCount(window, t.leases, l, now) <= t.licenses[l].maxDevices
  }

  /** What the rest of the service can do to the licence table while seats are being handed out: change
      status and ownership, and add rows. No route changes a hash, a device limit or an expiry, or deletes a row, and only
      a verify stamps a licence. */
  ghost predicate Evolves(before: Licenses, after: Licenses) {
    && before.Keys <= after.Keys
    && UniqueHashes(after)
    && forall l :: l in before ==> SameTerms(before[l], after[l]) && after[l].lastVerifiedAt == before[l].lastVerifiedAt
  }

  predicate SameTerms(a: License, b: License) {
    a.keyHash == b.keyHash && a.maxDevices == b.maxDevices && a.expiresAt == b.expiresAt
  }

  // ----- facts about counting

  lemma SubsetSize<T>(a: set<T>, b: set<T>)
    requires a <= b
    ensures |a| <= |b|
  {
    var rest := b - a;
    assert b == a + rest;
  }

  /** Time alone only empties seats. */
  lemma TimeOnlyFrees(window: nat, leases: LeaseTable, license: LicenseId, earlier: Time, later: Time)
    requires earlier <= later
    ensures LiveSlots(window, leases, license, later) <= LiveSlots(window, leases, license, earlier)
    ensures LiveCount(window, leases, license, later) <= LiveCount(window, leases, license, earlier)
  {
    SubsetSize(LiveSlots(window, leases, license, later), LiveSlots(window, leases, license, earlier));
  }

  /** A device that is not live does not count, so the others are everyone. */
  lemma OthersOfIdle(window: nat, leases: LeaseTable, slot: Slot, now: Time)
    requires slot !in LiveSlots(window, leases, slot.license, now)
    ensures OthersLive(window, leases, slot, now) == LiveCount(window, leases, slot.license, now)
  {
    var live := LiveSlots(window, leases, slot.license, now);
    assert live - {slot} == live;
  }

  lemma OthersOfLive(window: nat, leases: LeaseTable, slot: Slot, now: Time)
    requires slot in LiveSlots(window, leases, slot.license, now)
    ensures OthersLive(window, leases, slot, now) == LiveCount(window, leases, slot.license, now) - 1
  {
  }

  lemma OthersAtMostCount(window: nat, leases: LeaseTable, slot: Slot, now: Time)
    ensures LiveCount(window, leases, slot.license, now) - 1
         <= OthersLive(window, leases, slot, now) <= LiveCount(window, leases, slot.license, now)
  {
    if slot in LiveSlots(window, leases, slot.license, now) {
      OthersOfLive(window, leases, slot, now);
    } else {
      OthersOfIdle(window, leases, slot, now);
    }
  }

  lemma OthersOnlyFall(window: nat, leases: LeaseTable, slot: Slot, earlier: Time, later: Time)
    requires earlier <= later
    ensures OthersLive(window, leases, slot, later) <= OthersLive(window, leases, slot, earlier)
  {
    TimeOnlyFrees(window, leases, slot.license, earlier, later);
    SubsetSize(LiveSlots(window, leases, slot.license, later) - {slot},
               LiveSlots(window, leases, slot.license, earlier) - {slot});
  }

  // ----- the handler refines the rule

  /** The two decisions differ exactly when a device that was live at its own reading is granted although the
      others alone fill the licence. */
  lemma DecisionsDifferExactly(window: nat, t: Tables, keyHash: Digest, device: Digest,
                               expiryAt: Time, liveAt: Time, countAt: Time)
    requires Screen(t, keyHash, device, expiryAt).None?
    ensures var l := Lookup(t.licenses, keyHash).value;
            var slot := Slot(l, device);
            ThreePath(window, t, keyHash, device, expiryAt, liveAt, countAt)
              != LeaseRule(window, t, keyHash, device, expiryAt, countAt)
            <==>
            && slot in t.leases && Live(window, t.leases[slot], liveAt)
            && OthersLive(window, t.leases, slot, countAt) >= t.licenses[l].maxDevices
  {
    var l := Lookup(t.licenses, keyHash).value;
    if Slot(l, device) !in t.leases {
      OthersOfIdle(window, t.leases, Slot(l, device), countAt);
    }
  }

  /** Within the seat bound the shortcut for live devices is sound: the handler is the rule, answer for answer. */
  lemma HandlerRefinesRule(window: nat, t: Tables, keyHash: Digest, device: Digest,
                           expiryAt: Time, liveAt: Time, countAt: Time)
    requires SeatBound(window, t, liveAt) && liveAt <= countAt
    ensures ThreePath(window, t, keyHash, device, expiryAt, liveAt, countAt)
         == LeaseRule(window, t, keyHash, device, expiryAt, countAt)
  {
    if Screen(t, keyHash, device, expiryAt).None? {
      DecisionsDifferExactly(window, t, keyHash, device, expiryAt, liveAt, countAt);
      var slot := Slot(Lookup(t.licenses, keyHash).value, device);
      if slot in t.leases && Live(window, t.leases[slot], liveAt) {
        OthersOfLive(window, t.leases, slot, liveAt);
        OthersOnlyFall(window, t.leases, slot, liveAt, countAt);
      }
    }
  }

  /** Within the seat bound a limit refusal always reports exactly `max_devices`. */
  lemma LimitRefusalIsExact(window: nat, t: Tables, keyHash: Digest, device: Digest, expiryAt: Time, now: Time)
    requires SeatBound(window, t, now)
    requires LeaseRule(window, t, keyHash, device, expiryAt, now).Deny?
    requires LeaseRule(window, t, keyHash, device, expiryAt, now).code == DeviceLimitReached
    ensures var d := LeaseRule(window, t, keyHash, device, expiryAt, now);
            && d.license.Some? && d.license.value in t.licenses
            && d.counted == Some(t.licenses[d.license.value].maxDevices as nat)
  {
    OthersAtMostCount(window, t.leases, Slot(Lookup(t.licenses, keyHash).value, device), now);
  }

  // ----- what each answer means

  /** The key's licence is active and its expiry, if it has one, lies after the reading. */
  predicate Usable(t: Tables, l: LicenseId, keyHash: Digest, expiryAt: Time) {
    && l in t.licenses && t.licenses[l].keyHash == keyHash && t.licenses[l].status == Active
    && (t.licenses[l].expiresAt.None? || t.licenses[l].expiresAt.value > expiryAt)
  }

  /** A verify is granted exactly for an unrevoked device on the active, unexpired licence of that key, with room left. */
  lemma GrantedExactly(window: nat, t: Tables, keyHash: Digest, device: Digest, expiryAt: Time, now: Time, slot: Slot)
    requires UniqueHashes(t.licenses)
    ensures LeaseRule(window, t, keyHash, device, expiryAt, now) == Grant(slot)
      <==>
        && slot.device == device && Usable(t, slot.license, keyHash, expiryAt)
        && (slot in t.leases ==> t.leases[slot].revokedAt.None?)
        && OthersLive(window, t.leases, slot, now) < t.licenses[slot.license].maxDevices
  {
  }

  /** The first failing check decides the code; each code has exactly one cause, and only a limit refusal reports a
      number, that of the other live devices. */
  lemma RefusedExactly(window: nat, t: Tables, keyHash: Digest, device: Digest, expiryAt: Time, now: Time, l: LicenseId)
    requires UniqueHashes(t.licenses) && l in t.licenses && t.licenses[l].keyHash == keyHash
    ensures var d := LeaseRule(window, t, keyHash, device, expiryAt, now);
            var expired := t.licenses[l].expiresAt.Some? && t.licenses[l].expiresAt.value <= expiryAt;
            var revoked := Slot(l, device) in t.leases && t.leases[Slot(l, device)].revokedAt.Some?;
            var others := OthersLive(window, t.leases, Slot(l, device), now);
            && (d.Deny? ==> d.license == Some(l) && d.code != InvalidKey)
            && (d.Deny? ==> d.counted == if d.code == DeviceLimitReached then Some(others) else None)
            && (d.Deny? && d.code == LicenseNotActive <==> t.licenses[l].status != Active)
            && (d.Deny? && d.code == LicenseExpired <==> t.licenses[l].status == Active && expired)
            && (d.Deny? && d.code == DeviceRevoked <==> t.licenses[l].status == Active && !expired && revoked)
            && (d.Deny? && d.code == DeviceLimitReached <==>
                  t.licenses[l].status == Active && !expired && !revoked && others >= t.licenses[l].maxDevices)
  {
    assert Lookup(t.licenses, keyHash) == Some(l);
  }

  /** A key is answered as invalid exactly when no licence has its hash, and then nothing else is said. */
  lemma InvalidExactly(window: nat, t: Tables, keyHash: Digest, device: Digest, expiryAt: Time, now: Time)
    ensures var d := LeaseRule(window, t, keyHash, device, expiryAt, now);
            && (d.Deny? && d.code == InvalidKey <==> forall l :: l in t.licenses ==> t.licenses[l].keyHash != keyHash)
            && (d.Deny? && d.code == InvalidKey ==> d.license == None && d.counted == None)
  {
    if Lookup(t.licenses, keyHash).Some? {
      assert t.licenses[Lookup(t.licenses, keyHash).value].keyHash == keyHash;
    }
  }

  /** What is live, spelled out: unrevoked, and last seen less than a window before. */
  lemma LiveExactly(window: nat, leases: LeaseTable, p: Slot, now: Time)
    ensures p in LiveSlots(window, leases, p.license, now)
        <==> p in leases && leases[p].revokedAt.None? && now - leases[p].lastSeen < window
  {
  }

  /** What a granted verify writes: the device's row, new or renewed, was last seen at the stamp, its licence was last
      verified then, and nothing else changes. */
  lemma RenewExactly(t: Tables, slot: Slot, stamp: Time)
    requires slot.license in t.licenses && (slot in t.leases ==> t.leases[slot].revokedAt == None)
    ensures var after := Renew(t, slot, stamp);
            && after.leases.Keys == t.leases.Keys + {slot} && after.licenses.Keys == t.licenses.Keys
            && after.leases[slot] == Lease(stamp, None)
            && (forall p :: p in t.leases && p != slot ==> after.leases[p] == t.leases[p])
            && after.licenses[slot.license].lastVerifiedAt == Some(stamp)
            && (forall l :: l in t.licenses ==> after.licenses[l].(lastVerifiedAt := None) == t.licenses[l].(lastVerifiedAt := None))
            && (forall l :: l in t.licenses && l != slot.license ==> after.licenses[l] == t.licenses[l])
  {
  }

  // ----- what the writes do to the seats

  lemma RenewLeavesOthers(window: nat, t: Tables, slot: Slot, stamp: Time, l: LicenseId, now: Time)
    requires slot.license in t.licenses
    ensures LiveSlots(window, Renew(t, slot, stamp).leases, l, now) - {slot} == LiveSlots(window, t.leases, l, now) - {slot}
    ensures l != slot.license ==> LiveSlots(window, Renew(t, slot, stamp).leases, l, now) == LiveSlots(window, t.leases, l, now)
  {
  }

  /** Renewing one lease touches no other seat, whatever the stamp is. */
  lemma RenewSeats(window: nat, t: Tables, slot: Slot, stamp: Time, l: LicenseId, now: Time)
    requires slot.license in t.licenses
    ensures var before, after := LiveSlots(window, t.leases, l, now), LiveSlots(window, Renew(t, slot, stamp).leases, l, now);
            after - {slot} == before - {slot} && (l != slot.license ==> after == before)
    ensures LiveCount(window, Renew(t, slot, stamp).leases, slot.license, now) <= OthersLive(window, t.leases, slot, now) + 1
  {
    RenewLeavesOthers(window, t, slot, stamp, l, now);
    RenewLeavesOthers(window, t, slot, stamp, slot.license, now);
    OthersAtMostCount(window, Renew(t, slot, stamp).leases, slot, now);
  }

  /** From the release's own reading on, releasing only empties the released seat. */
  lemma ReleaseSeats(window: nat, t: Tables, slot: Slot, readAt: Time, l: LicenseId, now: Time)
    requires Releasable(t, slot) && readAt <= now
    ensures LiveSlots(window, Release(window, t, slot, readAt).leases, l, now)
         == LiveSlots(window, t.leases, l, now) - {slot}
  {
  }

  /** Keeping the bound: a granted renewal. */
  lemma RenewKeepsBound(window: nat, t: Tables, slot: Slot, stamp: Time, now: Time)
    requires SeatBound(window, t, now) && slot.license in t.licenses
    requires OthersLive(window, t.leases, slot, now) < t.licenses[slot.license].maxDevices
    ensures SeatBound(window, Renew(t, slot, stamp), now)
  {
    var t' := Renew(t, slot, stamp);
    forall l | l in t'.licenses ensures LiveCount(window, t'.leases, l, now) <= t'.licenses[l].maxDevices {
      RenewSeats(window, t, slot, stamp, l, now);
    }
  }

  lemma RenewKeepsRules(t: Tables, slot: Slot, stamp: Time)
    requires WellFormed(t) && slot.license in t.licenses
    ensures WellFormed(Renew(t, slot, stamp))
  {
  }

  lemma ReleaseKeepsBound(window: nat, t: Tables, slot: Slot, readAt: Time, now: Time)
    requires SeatBound(window, t, now) && Releasable(t, slot) && readAt <= now
    ensures SeatBound(window, Release(window, t, slot, readAt), now)
  {
    var t' := Release(window, t, slot, readAt);
    forall l | l in t'.licenses ensures LiveCount(window, t'.leases, l, now) <= t'.licenses[l].maxDevices {
      ReleaseSeats(window, t, slot, readAt, l, now);
      SubsetSize(LiveSlots(window, t'.leases, l, now), LiveSlots(window, t.leases, l, now));
    }
  }

  lemma TimeKeepsBound(window: nat, t: Tables, earlier: Time, later: Time)
    requires SeatBound(window, t, earlier) && earlier <= later
    ensures SeatBound(window, t, later)
  {
    forall l | l in t.licenses ensures LiveCount(window, t.leases, l, later) <= t.licenses[l].maxDevices {
      TimeOnlyFrees(window, t.leases, l, earlier, later);
    }
  }

  lemma EvolutionKeepsBound(window: nat, t: Tables, licenses: Licenses, now: Time)
    requires WellFormed(t) && SeatBound(window, t, now) && Evolves(t.licenses, licenses)
    ensures WellFormed(t.(licenses := licenses)) && SeatBound(window, t.(licenses := licenses), now)
  {
    forall l | l in licenses ensures LiveCount(window, t.leases, l, now) <= licenses[l].maxDevices {
      if l !in t.licenses {
        assert LiveSlots(window, t.leases, l, now) == {};
      } else {
        assert SameTerms(t.licenses[l], licenses[l]);
      }
    }
  }
}
