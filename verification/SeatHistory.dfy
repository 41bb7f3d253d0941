/**
 Histories of the seat tables: the decisions, releases and licence changes of a run, in the order in which
 they take effect. What the service promises over time is stated here; SeatProtocol shows that every
 interleaved run of the handlers leaves a legal history.
 */
module SeatHistory {
  import opened Models
  import opened Leases

  /** `at` is the clock when the event takes effect; `expiryAt` and `readAt` are the handler's own earlier
      readings; `stamp` is what the database wrote for CURRENT_TIMESTAMP; `tx` is the transaction that asked. The two
      "missed" events are requests that found no row to change. */
  datatype Event =
    | Decided(tx: nat, keyHash: Digest, device: Digest, expiryAt: Time, at: Time, stamp: Time, decision: Decision)
    | Released(tx: nat, keyHash: Digest, slot: Slot, readAt: Time, at: Time)
    | ReleaseMissed(tx: nat, keyHash: Digest, device: Digest, at: Time)
    | StatusSet(tx: nat, l: LicenseId, owner: Option<UserId>, status: LicenseStatus, at: Time)
    | StatusMissed(tx: nat, l: LicenseId, owner: Option<UserId>, at: Time)
    | LicensesChanged(licenses: Licenses, at: Time)

  /** The row a single-key change by an administrator (None) or by an owner finds. */
  predicate MaySet(licenses: Licenses, l: LicenseId, owner: Option<UserId>) {
    l in licenses && (owner.Some? ==> licenses[l].owner == owner)
  }

  function WithStatus(licenses: Licenses, l: LicenseId, status: LicenseStatus): Licenses
    requires l in licenses
  {
    licenses[l := licenses[l].(status := status)]
  }

  ghost predicate EventOk(window: nat, t: Tables, e: Event) {
    match e
    case Decided(_, keyHash, device, expiryAt, at, _, decision) =>
      expiryAt <= at && decision == LeaseRule(window, t, keyHash, device, expiryAt, at)
    case Released(_, keyHash, slot, readAt, at) =>
      Lookup(t.licenses, keyHash) == Some(slot.license) && Releasable(t, slot) && readAt <= at
    case ReleaseMissed(_, keyHash, device, _) =>
      var found := Lookup(t.licenses, keyHash);
      found.None? || !Releasable(t, Slot(found.value, device))
    case StatusSet(_, l, owner, _, _) => MaySet(t.licenses, l, owner)
    case StatusMissed(_, l, owner, _) => !MaySet(t.licenses, l, owner)
    case LicensesChanged(licenses, _) => Evolves(t.licenses, licenses)
  }

  ghost function After(window: nat, t: Tables, e: Event): Tables {
    match e
    case Decided(_, _, _, _, _, stamp, decision) =>
      if decision.Grant? && decision.slot.license in t.licenses then Renew(t, decision.slot, stamp) else t
    case Released(_, _, slot, readAt, _) => if Releasable(t, slot) then Release(window, t, slot, readAt) else t
    case StatusSet(_, l, _, status, _) => if l in t.licenses then t.(licenses := WithStatus(t.licenses, l, status)) else t
    case LicensesChanged(licenses, _) => t.(licenses := licenses)
    case _ => t
  }

  ghost function Replay(window: nat, t: Tables, h: seq<Event>): Tables {
    if h == [] then t else After(window, Replay(window, t, h[..|h| - 1]), h[|h| - 1])
  }

  function EndTime(start: Time, h: seq<Event>): Time {
    if h == [] then start else h[|h| - 1].at
  }

  /** Every event is what the atomic rule gives at its place, and the clock never runs back. */
  ghost predicate Legal(window: nat, t: Tables, start: Time, h: seq<Event>) {
    h == [] ||
    var before := h[..|h| - 1];
    && Legal(window, t, start, before)
    && EndTime(start, before) <= h[|h| - 1].at
    && EventOk(window, Replay(window, t, before), h[|h| - 1])
  }

  ghost predicate Good(window: nat, t: Tables, now: Time) {
    WellFormed(t) && SeatBound(window, t, now)
  }

  predicate IsGrant(e: Event, slot: Slot) {
    e.Decided? && e.decision == Grant(slot)
  }

  predicate IsRelease(e: Event, slot: Slot) {
    e.Released? && e.slot == slot
  }

  /** Write stamps lag the commit by at most `lag` and never lead it. */
  predicate LagBounded(lag: nat, h: seq<Event>) {
    forall i :: 0 <= i < |h| && h[i].Decided? && h[i].decision.Grant? ==> h[i].at - lag <= h[i].stamp <= h[i].at
  }

  /** Event `i` granted the slot and nothing has released it since. */
  predicate HeldFrom(h: seq<Event>, slot: Slot, i: nat) {
    i < |h| && IsGrant(h[i], slot) && forall j :: i < j < |h| ==> !IsRelease(h[j], slot)
  }

  /** Granted after `since` and not released after that. */
  ghost predicate HeldSince(h: seq<Event>, slot: Slot, since: Time) {
    exists i: nat :: HeldFrom(h, slot, i) && h[i].at > since
  }

  ghost predicate NoGrantOn(h: seq<Event>, license: LicenseId) {
    forall i :: 0 <= i < |h| && h[i].Decided? && h[i].decision.Grant? ==> h[i].decision.slot.license != license
  }

  // ----- the seat bound over histories

  lemma StatusEvolves(licenses: Licenses, l: LicenseId, status: LicenseStatus)
    requires UniqueHashes(licenses) && l in licenses
    ensures Evolves(licenses, WithStatus(licenses, l, status))
  {
  }

  lemma EventKeepsGood(window: nat, t: Tables, now: Time, e: Event)
    requires Good(window, t, now) && now <= e.at && EventOk(window, t, e)
    ensures Good(window, After(window, t, e), e.at)
  {
    TimeKeepsBound(window, t, now, e.at);
    match e
    case Decided(_, keyHash, device, expiryAt, at, stamp, decision) =>
      if decision.Grant? {
        RenewKeepsBound(window, t, decision.slot, stamp, at);
        RenewKeepsRules(t, decision.slot, stamp);
      }
    case Released(_, _, slot, readAt, at) =>
      ReleaseKeepsBound(window, t, slot, readAt, at);
    case StatusSet(_, l, _, status, at) =>
      StatusEvolves(t.licenses, l, status);
      EvolutionKeepsBound(window, t, WithStatus(t.licenses, l, status), at);
    case LicensesChanged(licenses, at) =>
      EvolutionKeepsBound(window, t, licenses, at);
    case _ =>
  }

  /** After any legal history no licence has more live devices than it allows, now or at any later instant. */
  lemma {:induction false} HistoryKeepsBound(window: nat, t: Tables, start: Time, h: seq<Event>, now: Time)
    requires Good(window, t, start) && Legal(window, t, start, h) && EndTime(start, h) <= now
    ensures Good(window, Replay(window, t, h), now)
  {
    if h == [] {
      TimeKeepsBound(window, t, start, now);
    } else {
      var before, e := h[..|h| - 1], h[|h| - 1];
      HistoryKeepsBound(window, t, start, before, EndTime(start, before));
      EventKeepsGood(window, Replay(window, t, before), EndTime(start, before), e);
      TimeKeepsBound(window, Replay(window, t, h), e.at, now);
    }
  }

  lemma LegalExtend(window: nat, t: Tables, start: Time, h: seq<Event>, e: Event)
    requires Legal(window, t, start, h) && EndTime(start, h) <= e.at && EventOk(window, Replay(window, t, h), e)
    ensures Legal(window, t, start, h + [e])
    ensures Replay(window, t, h + [e]) == After(window, Replay(window, t, h), e)
  {
    assert (h + [e])[..|h|] == h;
  }

  /** A beginning of a legal history is legal. */
  lemma {:induction false} LegalPrefix(window: nat, t: Tables, start: Time, h: seq<Event>, n: nat)
    requires Legal(window, t, start, h) && n <= |h|
    ensures Legal(window, t, start, h[..n])
    ensures EndTime(start, h[..n]) <= EndTime(start, h) && start <= EndTime(start, h)
  {
    if n == |h| {
      assert h[..n] == h;
      if h != [] {
        LegalPrefix(window, t, start, h[..|h| - 1], |h| - 1);
      }
    } else {
      LegalPrefix(window, t, start, h[..|h| - 1], n);
      assert h[..|h| - 1][..n] == h[..n];
    }
  }

  // ----- leases behind grants

  ghost predicate SeenSince(t: Tables, slot: Slot, since: Time) {
    slot in t.leases && t.leases[slot].revokedAt.None? && t.leases[slot].lastSeen >= since
  }

  lemma GrantIsSeen(window: nat, t: Tables, e: Event, slot: Slot)
    requires WellFormed(t) && EventOk(window, t, e) && IsGrant(e, slot)
    ensures SeenSince(After(window, t, e), slot, e.stamp)
  {
  }

  /** Only a release of the slot can make its row older. */
  lemma OnlyReleaseAges(window: nat, t: Tables, e: Event, slot: Slot, since: Time)
    requires SeenSince(t, slot, since) && !IsRelease(e, slot)
    requires IsGrant(e, slot) ==> e.stamp >= since
    ensures SeenSince(After(window, t, e), slot, since)
  {
  }

  lemma HeldBefore(h: seq<Event>, slot: Slot, i: nat)
    requires HeldFrom(h, slot, i) && i < |h| - 1
    ensures HeldFrom(h[..|h| - 1], slot, i) && !IsRelease(h[|h| - 1], slot)
  {
    var before := h[..|h| - 1];
    forall j | i < j < |before| ensures !IsRelease(before[j], slot) { assert before[j] == h[j]; }
  }

  /** The row behind an unreleased grant is unrevoked and was seen at most `lag` before the grant. */
  lemma {:induction false} HeldLease(window: nat, lag: nat, t: Tables, start: Time, h: seq<Event>, slot: Slot, i: nat)
    requires Good(window, t, start) && Legal(window, t, start, h) && LagBounded(lag, h) && HeldFrom(h, slot, i)
    ensures SeenSince(Replay(window, t, h), slot, h[i].at - lag)
  {
    var before, e := h[..|h| - 1], h[|h| - 1];
    var t' := Replay(window, t, before);
    if i == |h| - 1 {
      HistoryKeepsBound(window, t, start, before, EndTime(start, before));
      GrantIsSeen(window, t', e, slot);
    } else {
      HeldBefore(h, slot, i);
      assert LagBounded(lag, before);
      HeldLease(window, lag, t, start, before, slot, i);
      LaterEvents(window, t, start, h, i, |h| - 1);
      OnlyReleaseAges(window, t', e, slot, h[i].at - lag);
    }
  }

  lemma {:induction false} LaterEvents(window: nat, t: Tables, start: Time, h: seq<Event>, i: nat, j: nat)
    requires Legal(window, t, start, h) && i <= j < |h|
    ensures h[i].at <= h[j].at
  {
    LegalPrefix(window, t, start, h, j + 1);
    LegalPrefix(window, t, start, h[..j + 1], i + 1);
    assert h[..j + 1][..i + 1] == h[..i + 1];
  }

  /** A device granted within the last `window - lag` seconds and not released since is live. */
  lemma HeldIsLive(window: nat, lag: nat, t: Tables, start: Time, h: seq<Event>, slot: Slot, now: Time)
    requires Good(window, t, start) && Legal(window, t, start, h) && LagBounded(lag, h)
    requires HeldSince(h, slot, now - (window - lag))
    ensures slot in LiveSlots(window, Replay(window, t, h).leases, slot.license, now)
  {
    var i: nat :| HeldFrom(h, slot, i) && h[i].at > now - (window - lag);
    HeldLease(window, lag, t, start, h, slot, i);
  }

  // ----- the sliding window

  /** With stamps lagging by less than the window, at most `max_devices` distinct devices are granted a licence
      within any interval of `window - lag` seconds without being released. */
  lemma SlidingWindow(window: nat, lag: nat, t: Tables, start: Time, h: seq<Event>, license: LicenseId,
                      now: Time, holders: set<Slot>)
    requires Good(window, t, start) && Legal(window, t, start, h) && LagBounded(lag, h)
    requires lag < window && EndTime(start, h) <= now
    requires license in Replay(window, t, h).licenses
    requires forall p :: p in holders ==> p.license == license && HeldSince(h, p, now - (window - lag))
    ensures |holders| <= Replay(window, t, h).licenses[license].maxDevices
  {
    HistoryKeepsBound(window, t, start, h, now);
    var live := LiveSlots(window, Replay(window, t, h).leases, license, now);
    forall p | p in holders ensures p in live {
      HeldIsLive(window, lag, t, start, h, p, now);
    }
    SubsetSize(holders, live);
  }

  // ----- heartbeats

  /** A decision on this licence for this device. */
  predicate About(e: Event, slot: Slot) {
    && e.Decided? && e.device == slot.device
    && (e.decision == Grant(slot) || (e.decision.Deny? && e.decision.license == Some(slot.license)))
  }

  predicate IsLimitRefusal(e: Event, slot: Slot) {
    About(e, slot) && e.decision.Deny? && e.decision.code == DeviceLimitReached
  }

  /** Within the bound a live device is never refused for the limit. */
  lemma LiveIsNotRefused(window: nat, t: Tables, e: Event, slot: Slot)
    requires SeatBound(window, t, e.at) && e.Decided? && EventOk(window, t, e)
    requires slot in LiveSlots(window, t.leases, slot.license, e.at)
    ensures !IsLimitRefusal(e, slot)
  {
    OthersOfLive(window, t.leases, slot, e.at);
  }

  /** A limit refusal comes at least `window - lag` seconds after any unreleased grant to the same device. */
  lemma LimitRefusalIsLate(window: nat, lag: nat, t: Tables, start: Time, h: seq<Event>, e: Event, slot: Slot, i: nat)
    requires Good(window, t, start) && Legal(window, t, start, h + [e]) && LagBounded(lag, h)
    requires HeldFrom(h, slot, i) && IsLimitRefusal(e, slot)
    ensures e.at - h[i].at >= window - lag
  {
    assert (h + [e])[..|h|] == h;
    HistoryKeepsBound(window, t, start, h, e.at);
    HeldLease(window, lag, t, start, h, slot, i);
    if e.at - h[i].at < window - lag {
      LiveIsNotRefused(window, Replay(window, t, h), e, slot);
    }
  }

  /** Between events `first` and `k` there was a visit of the device no earlier than `since`. */
  ghost predicate Visited(h: seq<Event>, slot: Slot, first: nat, k: nat, since: Time) {
    exists i: nat :: first <= i < k && i < |h| && About(h[i], slot) && h[i].at >= since
  }

  /** After event `first` the device never stays away for more than `gap` seconds. */
  ghost predicate Punctual(h: seq<Event>, slot: Slot, first: nat, gap: int) {
    forall k: nat :: first < k < |h| && About(h[k], slot) ==> Visited(h, slot, first, k, h[k].at - gap)
  }

  /** After event `first` the device is refused for its licence's device limit or not at all. */
  ghost predicate OtherwiseWelcome(h: seq<Event>, slot: Slot, first: nat) {
    forall k: nat :: first < k < |h| && About(h[k], slot) ==> IsGrant(h[k], slot) || IsLimitRefusal(h[k], slot)
  }

  lemma HeldInPrefix(lag: nat, h: seq<Event>, slot: Slot, i: nat, k: nat)
    requires LagBounded(lag, h) && HeldFrom(h, slot, i) && i < k < |h|
    ensures LagBounded(lag, h[..k]) && HeldFrom(h[..k], slot, i) && h[..k][i] == h[i]
  {
    forall j | i < j < k ensures !IsRelease(h[..k][j], slot) { assert h[..k][j] == h[j]; }
  }

  lemma NoRefusalWithinHalf(window: nat, lag: nat, t: Tables, start: Time, h: seq<Event>, slot: Slot, i: nat, k: nat)
    requires Good(window, t, start) && Legal(window, t, start, h) && LagBounded(lag, h)
    requires lag < window - window / 2
    requires i < k < |h| && HeldFrom(h, slot, i) && h[i].at >= h[k].at - window / 2
    ensures !IsLimitRefusal(h[k], slot)
  {
    LegalPrefix(window, t, start, h, k + 1);
    assert h[..k + 1] == h[..k] + [h[k]];
    HeldInPrefix(lag, h, slot, i, k);
    if IsLimitRefusal(h[k], slot) {
      LimitRefusalIsLate(window, lag, t, start, h[..k], h[k], slot, i);
    }
  }

  /** A device that comes back within `heartbeat_after_seconds`, half a window, of its previous visit keeps its
      seat, whatever the other devices do, as long as it is not released and no other check refuses it. */
  lemma {:induction false} HeartbeatKeepsSeat(window: nat, lag: nat, t: Tables, start: Time, h: seq<Event>,
                                              slot: Slot, first: nat, k: nat)
    requires Good(window, t, start) && Legal(window, t, start, h) && LagBounded(lag, h)
    requires lag < window - window / 2
    requires HeldFrom(h, slot, first) && first <= k < |h| && About(h[k], slot)
    requires OtherwiseWelcome(h, slot, first) && Punctual(h, slot, first, window / 2)
    ensures IsGrant(h[k], slot)
    decreases k
  {
    if k > first {
      assert Visited(h, slot, first, k, h[k].at - window / 2);
      var i: nat :| first <= i < k && i < |h| && About(h[i], slot) && h[i].at >= h[k].at - window / 2;
      HeartbeatKeepsSeat(window, lag, t, start, h, slot, first, i);
      NoRefusalWithinHalf(window, lag, t, start, h, slot, i, k);
    }
  }

  // ----- recovering from a refusal

  /** From event `n` on, grants on the licence go to the given slots only. */
  ghost predicate GrantsWithin(h: seq<Event>, n: nat, license: LicenseId, holders: set<Slot>) {
    forall m :: n <= m < |h| && h[m].Decided? && h[m].decision.Grant? && h[m].decision.slot.license == license
      ==> h[m].decision.slot in holders
  }

  /** One event empties seats, or fills the seat it grants. */
  lemma EventSeats(window: nat, t: Tables, e: Event, license: LicenseId, now: Time)
    requires EventOk(window, t, e) && e.at <= now
    ensures var before, after := LiveSlots(window, t.leases, license, now), LiveSlots(window, After(window, t, e).leases, license, now);
            after <= (if e.Decided? && e.decision.Grant? && e.decision.slot.license == license
                      then before + {e.decision.slot} else before)
  {
    if e.Released? {
      ReleaseSeats(window, t, e.slot, e.readAt, license, now);
    } else if e.Decided? && e.decision.Grant? {
      RenewSeats(window, t, e.decision.slot, e.stamp, license, now);
    }
  }

  /** From event `n` on, only devices that were live then or are among the granted ones can be live. */
  lemma {:induction false} SeatsComeFromGrants(window: nat, t: Tables, start: Time, h: seq<Event>, n: nat,
                                               license: LicenseId, holders: set<Slot>, now: Time)
    requires Legal(window, t, start, h) && n <= |h| && GrantsWithin(h, n, license, holders) && EndTime(start, h) <= now
    ensures LiveSlots(window, Replay(window, t, h).leases, license, now)
         <= LiveSlots(window, Replay(window, t, h[..n]).leases, license, now) + holders
  {
    if n == |h| {
      assert h[..n] == h;
    } else {
      var before := h[..|h| - 1];
      assert before[..n] == h[..n];
      assert GrantsWithin(before, n, license, holders);
      SeatsComeFromGrants(window, t, start, before, n, license, holders, now);
      EventSeats(window, Replay(window, t, before), h[|h| - 1], license, now);
    }
  }

  /** Without new grants on a licence its seats only empty. */
  lemma NoGrantOnlyFrees(window: nat, t: Tables, start: Time, h: seq<Event>, license: LicenseId, now: Time)
    requires Legal(window, t, start, h) && NoGrantOn(h, license) && EndTime(start, h) <= now
    ensures LiveSlots(window, Replay(window, t, h).leases, license, now) <= LiveSlots(window, t.leases, license, now)
  {
    assert h[..0] == [];
    SeatsComeFromGrants(window, t, start, h, 0, license, {}, now);
  }

  /** From a release until its next grant a device is not live. */
  lemma {:induction false} ReleasedStaysOut(window: nat, t: Tables, start: Time, h: seq<Event>, slot: Slot, j: nat, now: Time)
    requires Legal(window, t, start, h) && j < |h| && IsRelease(h[j], slot) && EndTime(start, h) <= now
    requires forall i :: j < i < |h| ==> !IsGrant(h[i], slot)
    ensures slot !in LiveSlots(window, Replay(window, t, h).leases, slot.license, now)
  {
    var before, e := h[..|h| - 1], h[|h| - 1];
    if j == |h| - 1 {
      ReleaseSeats(window, Replay(window, t, before), slot, e.readAt, slot.license, now);
    } else {
      forall i | j < i < |before| ensures !IsGrant(before[i], slot) { assert before[i] == h[i]; }
      LegalPrefix(window, t, start, h, |h| - 1);
      ReleasedStaysOut(window, t, start, before, slot, j, now);
      assert !IsGrant(h[|h| - 1], slot);
      EventSeats(window, Replay(window, t, before), e, slot.license, now);
    }
  }

  /** A licence's hash, device limit and expiry are fixed for good, from any event on. */
  lemma {:induction false} TermsKeptSince(window: nat, t: Tables, start: Time, h: seq<Event>, n: nat, l: LicenseId)
    requires Legal(window, t, start, h) && n <= |h| && l in Replay(window, t, h[..n]).licenses
    ensures l in Replay(window, t, h).licenses
    ensures SameTerms(Replay(window, t, h[..n]).licenses[l], Replay(window, t, h).licenses[l])
  {
    if n == |h| {
      assert h[..n] == h;
    } else {
      assert h[..|h| - 1][..n] == h[..n];
      TermsKeptSince(window, t, start, h[..|h| - 1], n, l);
    }
  }

  lemma TermsNeverChange(window: nat, t: Tables, start: Time, h: seq<Event>, l: LicenseId)
    requires Legal(window, t, start, h) && l in t.licenses
    ensures l in Replay(window, t, h).licenses && SameTerms(t.licenses[l], Replay(window, t, h).licenses[l])
  {
    assert h[..0] == [];
    TermsKeptSince(window, t, start, h, 0, l);
  }

  /** A status change is made for an administrator, or for the owner of the licence, and alters that status alone. */
  lemma StatusSetExactly(window: nat, t: Tables, e: Event)
    requires e.StatusSet? && EventOk(window, t, e)
    ensures var after := After(window, t, e);
            && after.leases == t.leases && after.licenses.Keys == t.licenses.Keys && e.l in t.licenses
            && (e.owner.None? || t.licenses[e.l].owner == e.owner)
            && after.licenses[e.l].status == e.status
            && after.licenses[e.l].(status := Active) == t.licenses[e.l].(status := Active)
            && forall l :: l in t.licenses && l != e.l ==> after.licenses[l] == t.licenses[l]
  {
  }

  /** The stamp of the last grant on the licence, if there is one. */
  function LastStamp(h: seq<Event>, license: LicenseId, before: Option<Time>): Option<Time> {
    if h == [] then before
    else if h[|h| - 1].Decided? && h[|h| - 1].decision.Grant? && h[|h| - 1].decision.slot.license == license then
      Some(h[|h| - 1].stamp)
    else LastStamp(h[..|h| - 1], license, before)
  }

  /** `last_verified_at` is the time of the licence's last allowed verify, whatever else has happened. */
  lemma {:induction false} LastVerifiedIsLastGrant(window: nat, t: Tables, start: Time, h: seq<Event>, l: LicenseId)
    requires Legal(window, t, start, h) && l in t.licenses
    ensures l in Replay(window, t, h).licenses
    ensures Replay(window, t, h).licenses[l].lastVerifiedAt == LastStamp(h, l, t.licenses[l].lastVerifiedAt)
  {
    if h == [] {
    } else {
      LastVerifiedIsLastGrant(window, t, start, h[..|h| - 1], l);
      TermsNeverChange(window, t, start, h, l);
    }
  }

  /** A key that has a licence looks up that licence after any history, with verifies, releases and back-office changes
      in any order. */
  lemma KeysStayFound(window: nat, t: Tables, start: Time, h: seq<Event>, l: LicenseId)
    requires Good(window, t, start) && Legal(window, t, start, h) && l in t.licenses
    ensures Lookup(Replay(window, t, h).licenses, t.licenses[l].keyHash) == Some(l)
  {
    TermsNeverChange(window, t, start, h, l);
    HistoryKeepsBound(window, t, start, h, EndTime(start, h));
    assert UniqueHashes(Replay(window, t, h).licenses);
  }

  /** Counting `slot`'s others is at most counting the holders without the freed one. */
  lemma OthersWithoutFreed(window: nat, leases: LeaseTable, slot: Slot, holders: set<Slot>, freed: Slot, now: Time)
    requires LiveSlots(window, leases, slot.license, now) <= holders && freed in holders
    requires freed !in LiveSlots(window, leases, slot.license, now)
    ensures OthersLive(window, leases, slot, now) < |holders|
  {
    SubsetSize(LiveSlots(window, leases, slot.license, now) - {slot}, holders - {freed});
    assert |holders - {freed}| == |holders| - 1;
  }

  /** The devices live when event `n` is due bound those live later, as long as every grant goes to one of them. */
  lemma HoldersSince(window: nat, t: Tables, start: Time, h: seq<Event>, n: nat, license: LicenseId, since: Time, now: Time)
    requires Good(window, t, start) && Legal(window, t, start, h) && n <= |h|
    requires EndTime(start, h[..n]) <= since <= now && EndTime(start, h) <= now
    requires GrantsWithin(h, n, license, LiveSlots(window, Replay(window, t, h[..n]).leases, license, since))
    ensures LiveSlots(window, Replay(window, t, h).leases, license, now)
         <= LiveSlots(window, Replay(window, t, h[..n]).leases, license, since)
  {
    var holders := LiveSlots(window, Replay(window, t, h[..n]).leases, license, since);
    SeatsComeFromGrants(window, t, start, h, n, license, holders, now);
    TimeOnlyFrees(window, Replay(window, t, h[..n]).leases, license, since, now);
  }

  /** A refused device is granted on its next visit once one of the devices that were live at the refusal was released
      for good and no other seat was taken: those that were live may renew their leases as often as they like. */
  lemma RetryAfterRelease(window: nat, t: Tables, start: Time, h: seq<Event>, n: nat, refusedAt: Time, slot: Slot,
                          freed: Slot, j: nat, keyHash: Digest, expiryAt: Time, now: Time)
    requires Good(window, t, start) && Legal(window, t, start, h) && n <= j < |h|
    requires EndTime(start, h[..n]) <= refusedAt <= now && EndTime(start, h) <= now
    requires GrantsWithin(h, n, slot.license, LiveSlots(window, Replay(window, t, h[..n]).leases, slot.license, refusedAt))
    requires freed in LiveSlots(window, Replay(window, t, h[..n]).leases, slot.license, refusedAt)
    requires IsRelease(h[j], freed) && forall m :: j < m < |h| ==> !IsGrant(h[m], freed)
    requires Screen(Replay(window, t, h), keyHash, slot.device, expiryAt).None?
    requires Lookup(Replay(window, t, h).licenses, keyHash) == Some(slot.license)
    ensures LeaseRule(window, Replay(window, t, h), keyHash, slot.device, expiryAt, now) == Grant(slot)
  {
    var holders := LiveSlots(window, Replay(window, t, h[..n]).leases, slot.license, refusedAt);
    HoldersSince(window, t, start, h, n, slot.license, refusedAt, now);
    ReleasedStaysOut(window, t, start, h, freed, j, now);
    OthersWithoutFreed(window, Replay(window, t, h).leases, slot, holders, freed, now);
    HoldersWithinLimit(window, t, start, h, n, slot.license, freed, refusedAt);
  }

  lemma HoldersWithinLimit(window: nat, t: Tables, start: Time, h: seq<Event>, n: nat, l: LicenseId, holder: Slot, at: Time)
    requires Good(window, t, start) && Legal(window, t, start, h) && n <= |h| && EndTime(start, h[..n]) <= at
    requires holder in LiveSlots(window, Replay(window, t, h[..n]).leases, l, at)
    ensures l in Replay(window, t, h).licenses
    ensures LiveCount(window, Replay(window, t, h[..n]).leases, l, at) <= Replay(window, t, h).licenses[l].maxDevices
  {
    LegalPrefix(window, t, start, h, n);
    HistoryKeepsBound(window, t, start, h[..n], at);
    assert holder.license in Replay(window, t, h[..n]).licenses;
    TermsKeptSince(window, t, start, h, n, l);
  }

  /** No row was seen later than `now`. */
  ghost predicate SeenBy(t: Tables, now: Time) {
    forall p :: p in t.leases ==> t.leases[p].lastSeen <= now
  }

  /** A refused device is granted after a whole window in which no device was granted. */
  lemma RetryAfterWindow(window: nat, t: Tables, start: Time, h: seq<Event>, n: nat, refusedAt: Time, slot: Slot,
                         keyHash: Digest, expiryAt: Time, now: Time)
    requires Legal(window, t, start, h) && n <= |h| && SeenBy(Replay(window, t, h[..n]), refusedAt)
    requires EndTime(start, h) <= now && refusedAt + window <= now
    requires GrantsWithin(h, n, slot.license, {})
    requires Screen(Replay(window, t, h), keyHash, slot.device, expiryAt).None?
    requires Lookup(Replay(window, t, h).licenses, keyHash) == Some(slot.license)
    ensures LeaseRule(window, Replay(window, t, h), keyHash, slot.device, expiryAt, now) == Grant(slot)
  {
    SeatsComeFromGrants(window, t, start, h, n, slot.license, {}, now);
    assert LiveSlots(window, Replay(window, t, h[..n]).leases, slot.license, now) == {};
    var live := LiveSlots(window, Replay(window, t, h).leases, slot.license, now);
    assert live - {slot} == {};
  }

  /** A limit refusal at event `i` and a later visit of the device at event `k`. */
  ghost predicate RefusedThenBack(h: seq<Event>, slot: Slot, i: nat, k: nat) {
    i < k < |h| && IsLimitRefusal(h[i], slot) && About(h[k], slot)
  }

  /** The tables and the moment of an event in the middle of a history. */
  lemma AtEvent(window: nat, t: Tables, start: Time, h: seq<Event>, i: nat)
    requires Legal(window, t, start, h) && i < |h|
    ensures Legal(window, t, start, h[..i]) && EndTime(start, h[..i]) <= h[i].at
    ensures EventOk(window, Replay(window, t, h[..i]), h[i])
    ensures Replay(window, t, h[..i + 1]) == After(window, Replay(window, t, h[..i]), h[i])
  {
    LegalPrefix(window, t, start, h, i + 1);
    assert h[..i + 1][..i] == h[..i];
  }

  /** A second limit refusal at event `k` is the rule's answer there. */
  lemma SecondRefusal(window: nat, t: Tables, start: Time, h: seq<Event>, slot: Slot, k: nat)
    requires Legal(window, t, start, h) && k < |h| && IsLimitRefusal(h[k], slot)
    ensures var now := Replay(window, t, h[..k]);
            && Screen(now, h[k].keyHash, slot.device, h[k].expiryAt).None?
            && Lookup(now.licenses, h[k].keyHash) == Some(slot.license)
            && LeaseRule(window, now, h[k].keyHash, slot.device, h[k].expiryAt, h[k].at) != Grant(slot)
  {
    AtEvent(window, t, start, h, k);
  }

  /** Up to the visit at event `k`: another device, live at the refusal, was released at event `j` and not granted again,
      and every grant on the licence renewed the seat of a device that was live at the refusal. */
  ghost predicate Freed(window: nat, refusedOn: Tables, h: seq<Event>, slot: Slot, i: nat, j: nat, k: nat, freed: Slot)
    requires i < |h|
  {
    && i < j < k <= |h| && IsRelease(h[j], freed)
    && freed in LiveSlots(window, refusedOn.leases, slot.license, h[i].at)
    && (forall m :: j < m < k ==> !IsGrant(h[m], freed))
    && GrantsWithin(h[..k], i, slot.license, LiveSlots(window, refusedOn.leases, slot.license, h[i].at))
  }

  /** A refusal is recoverable: once one of the devices that were live at the refusal is released, with no other seat
      taken in between, the refused device is not refused for the limit again, however busily the other devices that
      were live renew their leases. */
  lemma NextVisitAfterRelease(window: nat, t: Tables, start: Time, h: seq<Event>, slot: Slot, i: nat, j: nat, k: nat,
                              freed: Slot)
    requires Good(window, t, start) && Legal(window, t, start, h) && RefusedThenBack(h, slot, i, k)
    requires Freed(window, Replay(window, t, h[..i]), h, slot, i, j, k, freed)
    ensures !IsLimitRefusal(h[k], slot)
  {
    if IsLimitRefusal(h[k], slot) {
      SecondRefusal(window, t, start, h, slot, k);
      AtEvent(window, t, start, h, i);
      AtEvent(window, t, start, h, k);
      LaterEvents(window, t, start, h, i, k);
      assert h[..k][..i] == h[..i] && h[..k][j] == h[j];
      forall m | j < m < k ensures !IsGrant(h[..k][m], freed) { assert h[..k][m] == h[m]; }
      RetryAfterRelease(window, t, start, h[..k], i, h[i].at, slot, freed, j, h[k].keyHash, h[k].expiryAt, h[k].at);
    }
  }

  lemma SeenAtEvent(window: nat, lag: nat, t: Tables, start: Time, h: seq<Event>, i: nat)
    requires SeenBy(t, start) && Legal(window, t, start, h) && LagBounded(lag, h) && i < |h|
    ensures SeenBy(Replay(window, t, h[..i]), h[i].at)
  {
    AtEvent(window, t, start, h, i);
    assert LagBounded(lag, h[..i]);
    HistoryIsSeenBy(window, lag, t, start, h[..i]);
  }

  /** The same holds after a whole window in which no device of the licence was granted. */
  lemma NextVisitAfterWindow(window: nat, lag: nat, t: Tables, start: Time, h: seq<Event>, slot: Slot, i: nat, k: nat)
    requires SeenBy(t, start) && Legal(window, t, start, h) && LagBounded(lag, h)
    requires RefusedThenBack(h, slot, i, k) && h[i].at + window <= h[k].at && GrantsWithin(h[..k], i, slot.license, {})
    ensures !IsLimitRefusal(h[k], slot)
  {
    if IsLimitRefusal(h[k], slot) {
      SecondRefusal(window, t, start, h, slot, k);
      SeenAtEvent(window, lag, t, start, h, i);
      AtEvent(window, t, start, h, k);
      assert h[..k][..i] == h[..i];
      RetryAfterWindow(window, t, start, h[..k], i, h[i].at, slot, h[k].keyHash, h[k].expiryAt, h[k].at);
    }
  }

  /** With stamps that never lead the commit, every history ends with rows seen no later than its end. */
  lemma {:induction false} HistoryIsSeenBy(window: nat, lag: nat, t: Tables, start: Time, h: seq<Event>)
    requires Legal(window, t, start, h) && LagBounded(lag, h) && SeenBy(t, start)
    ensures SeenBy(Replay(window, t, h), EndTime(start, h))
  {
    if h == [] {
    } else {
      var before, e := h[..|h| - 1], h[|h| - 1];
      assert LagBounded(lag, before);
      HistoryIsSeenBy(window, lag, t, start, before);
      if e.Decided? && e.decision.Grant? {
        assert h[|h| - 1].stamp <= e.at;
      }
    }
  }

  // ----- releases

  /** A release empties its own seat and no licence gains a live device at any instant from then on, although
      the write may move an old timestamp forward. */
  lemma ReleaseIsMonotone(window: nat, t: Tables, e: Event, license: LicenseId, now: Time)
    requires e.Released? && EventOk(window, t, e) && e.at <= now
    ensures e.slot !in LiveSlots(window, After(window, t, e).leases, e.slot.license, now)
    ensures LiveCount(window, After(window, t, e).leases, license, now) <= LiveCount(window, t.leases, license, now)
  {
    ReleaseSeats(window, t, e.slot, e.readAt, license, now);
    ReleaseSeats(window, t, e.slot, e.readAt, e.slot.license, now);
    SubsetSize(LiveSlots(window, After(window, t, e).leases, license, now), LiveSlots(window, t.leases, license, now));
  }

  /** Counted at an instant before the release the number can go up, by the device just released. This is why a
      replay has to count at the commit, not at the handler's own earlier reading. */
  lemma PastCountCanRise(window: nat, t: Tables, slot: Slot, readAt: Time, past: Time)
    requires Releasable(t, slot) && t.leases[slot].lastSeen <= past - window
    ensures LiveCount(window, Release(window, t, slot, readAt).leases, slot.license, past)
         == LiveCount(window, t.leases, slot.license, past) + (if past < readAt - 1 then 1 else 0)
  {
    var before := LiveSlots(window, t.leases, slot.license, past);
    var after := LiveSlots(window, Release(window, t, slot, readAt).leases, slot.license, past);
    if past < readAt - 1 {
      assert after == before + {slot};
    } else {
      assert after == before;
    }
  }
}
