/**
 Histories that show the bounds of SeatHistory cannot be widened: one licence for one device, and two devices
 that take turns as fast as the stamps allow.
 */
module SeatLimits {
  import opened Models
  import opened Leases
  import opened SeatHistory

  /** A licence for one device, active and without expiry. */
  predicate OneSeat(licenses: Licenses, key: Digest, l: LicenseId) {
    && licenses.Keys == {l}
    && licenses[l].keyHash == key && licenses[l].status == Active
    && licenses[l].maxDevices == 1 && licenses[l].expiresAt.None?
  }

  predicate Fresh(t: Tables, key: Digest, l: LicenseId) {
    OneSeat(t.licenses, key, l) && t.leases == map[]
  }

  function Visit(key: Digest, slot: Slot, at: Time, stamp: Time, decision: Decision): Event {
    Decided(0, key, slot.device, at, at, stamp, decision)
  }

  /** With nobody live, a visit is granted, and from then on only the visitor's row is new. */
  lemma GrantWhenFree(window: nat, t: Tables, key: Digest, slot: Slot, at: Time, stamp: Time) returns (e: Event, t': Tables)
    requires OneSeat(t.licenses, key, slot.license) && (slot in t.leases ==> t.leases[slot].revokedAt.None?)
    requires LiveSlots(window, t.leases, slot.license, at) == {}
    ensures e == Visit(key, slot, at, stamp, Grant(slot)) && EventOk(window, t, e) && t' == After(window, t, e)
    ensures OneSeat(t'.licenses, key, slot.license) && t'.leases == t.leases[slot := Lease(stamp, None)]
  {
    e := Visit(key, slot, at, stamp, Grant(slot));
    t' := After(window, t, e);
    assert slot.license in t.licenses;
    assert LiveSlots(window, t.leases, slot.license, at) - {slot} == {};
  }

  /** A granted at 0 with an old stamp, and B granted when that stamp is a window old. */
  ghost predicate InTurn(h: seq<Event>, window: nat, key: Digest, a: Slot, b: Slot, gap: nat) {
    |h| == 2 && h[0] == Visit(key, a, 0, gap - window, Grant(a)) && h[1] == Visit(key, b, gap, gap, Grant(b))
  }

  lemma FirstTurn(window: nat, t: Tables, key: Digest, a: Slot, gap: nat) returns (first: Event, t1: Tables)
    requires Fresh(t, key, a.license)
    ensures first == Visit(key, a, 0, gap - window, Grant(a))
    ensures Legal(window, t, 0, [] + [first]) && t1 == Replay(window, t, [] + [first])
    ensures OneSeat(t1.licenses, key, a.license) && t1.leases == map[a := Lease(gap - window, None)]
  {
    assert LiveSlots(window, t.leases, a.license, 0) == {};
    first, t1 := GrantWhenFree(window, t, key, a, 0, gap - window);
    LegalExtend(window, t, 0, [], first);
  }

  lemma TakeTurns(window: nat, t: Tables, key: Digest, a: Slot, b: Slot, gap: nat) returns (h: seq<Event>, t2: Tables)
    requires Fresh(t, key, a.license) && a != b && a.license == b.license && 0 < window && gap <= window
    ensures InTurn(h, window, key, a, b, gap) && Legal(window, t, 0, h) && t2 == Replay(window, t, h)
    ensures OneSeat(t2.licenses, key, a.license)
    ensures t2.leases == map[a := Lease(gap - window, None), b := Lease(gap, None)]
  {
    var first, t1 := FirstTurn(window, t, key, a, gap);
    var h1 := [] + [first];
    assert LiveSlots(window, t1.leases, b.license, gap) == {};
    var second;
    second, t2 := GrantWhenFree(window, t1, key, b, gap, gap);
    LegalExtend(window, t, 0, h1, second);
    h := h1 + [second];
  }

  /** A's lease has just run out and B holds the only seat, so A is refused. */
  lemma RefuseWhenTaken(window: nat, t: Tables, key: Digest, a: Slot, b: Slot, now: nat) returns (refusal: Event)
    requires 0 < window && OneSeat(t.licenses, key, a.license) && a != b && a.license == b.license
    requires t.leases == map[a := Lease(now - window, None), b := Lease(now, None)]
    ensures EventOk(window, t, refusal) && refusal.at == now && IsLimitRefusal(refusal, a)
  {
    refusal := Visit(key, a, now, now, Deny(DeviceLimitReached, Some(a.license), Some(1)));
    assert a.license in t.licenses;
    assert LiveSlots(window, t.leases, a.license, now) - {a} == {b};
  }

  lemma FreshIsGood(window: nat, t: Tables, key: Digest, l: LicenseId)
    requires Fresh(t, key, l)
    ensures Good(window, t, 0)
  {
    assert LiveSlots(window, t.leases, l, 0) == {};
  }

  lemma HeldAfterTurns(window: nat, lag: nat, key: Digest, a: Slot, b: Slot, gap: nat, h: seq<Event>)
    requires gap <= window <= gap + lag && InTurn(h, window, key, a, b, gap)
    ensures LagBounded(lag, h) && HeldFrom(h, a, 0) && HeldFrom(h, b, 1)
  {
  }

  /** One second more and the sliding-window bound fails: with any lag below the window, two devices were granted
      a one-device licence within `window - lag + 1` seconds and neither was released. */
  lemma SlidingWindowIsSharp(window: nat, lag: nat, t: Tables, key: Digest, a: Slot, b: Slot)
    returns (h: seq<Event>, now: Time)
    requires lag < window && Fresh(t, key, a.license) && a != b && a.license == b.license
    ensures Good(window, t, 0) && Legal(window, t, 0, h) && LagBounded(lag, h) && EndTime(0, h) == now
    ensures OneSeat(Replay(window, t, h).licenses, key, a.license)
    ensures HeldSince(h, a, now - (window - lag) - 1) && HeldSince(h, b, now - (window - lag) - 1)
  {
    now := window - lag;
    var t2;
    h, t2 := TakeTurns(window, t, key, a, b, window - lag);
    FreshIsGood(window, t, key, a.license);
    HeldAfterTurns(window, lag, key, a, b, window - lag, h);
  }

  /** A was granted, was never released, came back after `gap` seconds and was refused for the limit. */
  ghost predicate LostSeat(lag: nat, h: seq<Event>, refusal: Event, a: Slot, gap: nat) {
    && LagBounded(lag, h)
    && HeldFrom(h, a, 0) && refusal.at - h[0].at == gap && IsLimitRefusal(refusal, a)
  }

  /** The heartbeat promise needs its bound on the lag: as soon as the lag may reach `window - window / 2`, a device
      that comes back after exactly half a window can find its seat taken. */
  lemma HeartbeatIsSharp(window: nat, lag: nat, t: Tables, key: Digest, a: Slot, b: Slot)
    returns (h: seq<Event>, refusal: Event)
    requires 0 < window && lag >= window - window / 2
    requires Fresh(t, key, a.license) && a != b && a.license == b.license
    ensures Good(window, t, 0) && Legal(window, t, 0, h + [refusal]) && LostSeat(lag, h, refusal, a, window / 2)
  {
    var t2;
    h, t2 := TakeTurns(window, t, key, a, b, window / 2);
    refusal := RefuseWhenTaken(window, t2, key, a, b, window / 2);
    LegalExtend(window, t, 0, h, refusal);
    FreshIsGood(window, t, key, a.license);
    HeldAfterTurns(window, lag, key, a, b, window / 2, h);
  }
}
