# Verification of the licensing server's core

A Dafny model of three connected state machines over the server's SQL tables, with proofs of what they promise.

* **Device seats.** `verify_license` gives a device a time-limited seat on a licence, `release_license` gives it back.
  A seat is an unrevoked activation row that was seen within the heartbeat window. `Leases` holds the decision as the
  handler computes it (three paths, one clock reading each) and the simple rule it stands for: a device gets a seat
  exactly when fewer than `max_devices` others hold one. `LicenseService` is the pair of handlers as a class over
  id-keyed rows, one call at a time, and `DeviceIds` says which spellings of a device id are one device.
  `SeatProtocol` runs them, together with single-key status changes, as interleaved transactions: one statement per
  step, row locks, private writes, clock ticks, and a drop at any point (an error return or the request timeout).
  `SeatSafety` and `SeatSteps` prove one invariant of all interleavings; `SeatTheorems` draws the results: the seat
  bound, linearisation to the rule, deadlock freedom and bounded work. `SeatReports` follows the number an allowed
  answer reports from the recount to the commit. `SeatHistory` proves what holds over time of every history the
  linearisation leaves (sliding window, heartbeats, recovery from a refusal, releases), and `SeatLimits` shows that
  the two lag bounds cannot be widened.
* **Key requests and issuance.** `Database` is the set of write transactions on users, licences and requests with the
  schema's uniqueness and ON DELETE rules; `Ledger` and `BulkChanges` prove facts about every history of them;
  `Backoffice` adds the checks in front of each transaction and the handlers as a class. `IssuanceProtocol` interleaves
  approvals, rejections and generations, insert by insert; `IssuanceTheorems` shows that every interleaving leaves such
  a history. `Listing` is the grouped join of the two key listings.
* **Licence keys.** `Crypto` is the codec: random bytes to grouped text, the normalisation every lookup goes through,
  and the exact distribution of keys.

The parts meet in a few lemmas. `LicenseService.VerifyIsAnEvent`, `ReleaseIsAnEvent` and `EventsAreCalls` identify the
atomic handlers with the events that `SeatTheorems.RunsLinearise` finds in every interleaved run.
`Ledger.CommitEvolvesLicenses` makes every back-office transaction one of the licence-table changes that the seat
protocol tolerates in the middle of its transactions. `Ledger.IssuedKeysSurvive` and `IssuedKeysVerify` follow a key from
the response that returned it to the decision of a later verify.

## Assumptions and findings

* There is one application clock and it never runs back. A clock reading and the statement that uses it are one step.
* The write stamp (`CURRENT_TIMESTAMP`) is its own input. The seat bound assumes nothing about it. The sliding-window
  and heartbeat results assume it is never later than the commit (`LagBounded`) and lags it by at most `lag`;
  `SeatLimits` shows why `lag < window - window / 2` is needed.
* A decision is replayed at its commit, not at the handler's own earlier reading: releasing a long-stale row moves its
  timestamp forward, so a count at an earlier instant can go up (`SeatHistory.PastCountCanRise`). Only the expiry check
  uses the transaction's own reading.
* The path that skips counting agrees with the rule only because of the seat bound; `Leases.DecisionsDifferExactly` says
  exactly when the two would differ.
* Revocation is not final. The comment at `src/routes/admin.rs:277-278` says that only an administrator can bring a
  revoked key back one by one; `src/routes/reseller.rs:241-246` lets the owning reseller do it as well
  (`Backoffice.OwnerRevivesKey`). The model follows the code: `Backoffice.WhoCanRevive` says exactly who can, and
  `Ledger.RevokedUntilLifted` gives the exact condition on a history.
* Direct generation checks that the owner is active, outside its transaction (`src/routes/admin.rs:851-875`); approval
  does not ask at all (`Backoffice.ApprovalIgnoresAccounts`).
* `License.origin` is no column. It records which approval inserted a row, so that issuance can be counted without
  trusting the free-form metadata.

`dafny verify dfyconfig.toml` checks the whole project.

## Model

| member | source | states |
|---|---|---|
| Models.Lookup | src/routes/licenses.rs:96-104 | the row found for a hash has that hash, and "not found" means no row has it |
| Leases.GrantedExactly | src/routes/licenses.rs:113-248 | the rule grants if and only if the key's licence is active and unexpired, the device is not revoked, and fewer than `max_devices` others are live |
| Leases.RefusedExactly | src/routes/licenses.rs:113-248 | each refusal code has exactly one cause, the first check that fails; a limit refusal reports the number of other live devices, every other refusal none |
| Leases.InvalidExactly | src/routes/licenses.rs:96-111 | a key is answered `invalid_key` if and only if no licence has its hash |
| Leases.LiveExactly | src/routes/licenses.rs:343-367 | a device is live if and only if it is unrevoked and was last seen less than a window ago |
| Leases.RenewExactly | src/routes/licenses.rs:198-228 | a granted verify writes the stamp as the device's last seen and the licence's `last_verified_at`, leaves the device unrevoked, and changes nothing else |
| Leases.HandlerRefinesRule | src/routes/licenses.rs:162-248 | within the seat bound the three-path decision equals the lease rule, answer for answer, although the live path counts nothing |
| Leases.DecisionsDifferExactly | src/routes/licenses.rs:174-248 | past the first checks the two decisions differ if and only if the device was live at its own reading while the others alone fill the licence |
| Leases.LimitRefusalIsExact | src/routes/licenses.rs:186-195 | within the seat bound a `device_limit_reached` refusal reports exactly `max_devices` |
| Leases.TimeOnlyFrees | src/routes/licenses.rs:343-367 | a later cutoff counts a subset of the devices, so time alone never fills a seat |
| Leases.RenewSeats | src/routes/licenses.rs:198-228 | writing a device's row changes no other seat of any licence, whatever the stamp, and leaves at most the others plus one |
| Leases.ReleaseSeats | src/routes/licenses.rs:314-335 | from the release's own reading on, the live devices are those before minus the released one |
| Leases.RenewKeepsBound | src/routes/licenses.rs:186-228 | a write after a successful count keeps every licence within its device limit |
| Leases.ReleaseKeepsBound | src/routes/licenses.rs:314-335 | a release keeps every licence within its device limit |
| Leases.EvolutionKeepsBound | src/routes/admin.rs:489-513 | status changes, owner changes and new licences keep the device limits, since none changes `max_devices` |
| SeatHistory.HistoryKeepsBound | src/routes/licenses.rs:78-335 | after any history of decisions, releases and licence changes no licence exceeds its limit, then or later |
| SeatHistory.HeldIsLive | src/routes/licenses.rs:174-228 | a device granted within the last `window - lag` seconds and not released since is live |
| SeatHistory.SlidingWindow | src/routes/licenses.rs:174-284 | at most `max_devices` distinct devices hold an unreleased grant from any interval of `window - lag` seconds |
| SeatHistory.LimitRefusalIsLate | src/routes/licenses.rs:174-196 | a limit refusal comes at least `window - lag` seconds after any unreleased grant to the same device |
| SeatHistory.HeartbeatKeepsSeat | src/routes/licenses.rs:399-412 | a device that returns within `heartbeat_after_seconds` of each visit is granted every time, whatever the other devices do |
| SeatHistory.SeatsComeFromGrants | src/routes/licenses.rs:162-284 | from any event on, a device is live only if it was live then or was granted since |
| SeatHistory.NoGrantOnlyFrees | src/routes/licenses.rs:162-284 | without new grants the set of live devices of a licence only shrinks |
| SeatHistory.RetryAfterRelease | src/routes/licenses.rs:186-195 | a refused device is granted once a device that was live at the refusal was released and not granted again, while every other grant on the licence renewed a device that was live at the refusal |
| SeatHistory.RetryAfterWindow | src/routes/licenses.rs:237-248 | a refused device is granted after a whole window without other grants |
| SeatHistory.NextVisitAfterRelease | src/routes/licenses.rs:186-195 | after a limit refusal and the release of a device that was live then, with no other seat taken, no later visit is refused for the limit, however often the other live devices renew |
| SeatHistory.NextVisitAfterWindow | src/routes/licenses.rs:237-248 | the same after `window` seconds in which no device of the licence was granted |
| SeatHistory.ReleasedStaysOut | src/routes/licenses.rs:314-335 | from a release until its next grant a device is not live |
| SeatHistory.ReleaseIsMonotone | src/routes/licenses.rs:314-335 | a release empties its own seat, and no licence's count rises at any instant from then on |
| SeatHistory.PastCountCanRise | src/routes/licenses.rs:314-315 | counted at an earlier instant, releasing a stale row adds one exactly when that instant lies before the written stamp plus a window |
| SeatHistory.TermsNeverChange | src/routes/licenses.rs:222-228 | hash, device limit and expiry of a licence stay as issued over any history |
| SeatHistory.KeysStayFound | src/routes/licenses.rs:96-104 | a licence's hash looks up that licence after any history of verifies, releases and back-office changes |
| SeatHistory.StatusSetExactly | src/routes/admin.rs:489-513 | a status change between verifies needs the right owner and alters that status alone |
| SeatHistory.LastVerifiedIsLastGrant | src/routes/licenses.rs:222-228 | after any history a licence's `last_verified_at` is the stamp of its last allowed verify, or what it was at the start |
| SeatLimits.SlidingWindowIsSharp | src/routes/licenses.rs:200-211 | for every lag below the window there is a history in which an interval one second longer holds two unreleased grants of a one-device licence |
| SeatLimits.HeartbeatIsSharp | src/routes/licenses.rs:174-196 | once the lag may reach `window - window / 2` there is a history in which a device returning after exactly half a window is refused |
| SeatSteps.LivenessStep | src/routes/licenses.rs:174-176 | the statement that skips the count keeps the invariant that a granted transaction has room until its commit |
| SeatSteps.NextKeepsInv | src/routes/licenses.rs:78-335 | every statement, tick, drop, new transaction and licence change keeps the protocol invariant |
| SeatTheorems.SeatsNeverExceeded | src/routes/licenses.rs:78-284 | in every reachable state of every interleaving each licence, old or added during the run, has at most its `max_devices` live devices, for any write stamps; that limit never changes |
| SeatTheorems.RunsLinearise | src/routes/licenses.rs:78-335 | the tables after a run are those of replaying its log with the rule at each commit, every decision is the rule's, and the answers of verifies, releases and status changes correspond one to one to logged events |
| SeatTheorems.RunsAreCalls | src/routes/licenses.rs:59-341 | conversely each event of a run's log is what the atomic handler does on the tables at that point: the three-path decision, or the release |
| SeatTheorems.AnswersReportTheLimit | src/routes/licenses.rs:186-195 | in every run an allowed answer reports at most `max_devices`, a limit refusal exactly `max_devices`, and no other refusal a number |
| SeatReports.AnswersCountTheSeats | src/routes/licenses.rs:198-284 | in every run an allowed answer reports the seats taken when it recounted, its own included; at its commit no more are taken, so it reports at least one while its stamp is inside the window, and exactly as many if nothing of the licence was released and nothing ran out in between |
| SeatTheorems.WhyItWaits | src/routes/licenses.rs:78-160 | the only reasons to wait are a licence row or an activation row locked by someone else |
| SeatTheorems.RowHolderMoves | src/routes/licenses.rs:138-160 | whoever holds an activation row can execute its next statement |
| SeatTheorems.NeverDeadlocked | src/routes/licenses.rs:317-335 | while some transaction is unfinished, some unfinished transaction can execute its next statement |
| SeatTheorems.WorkDecreases | src/routes/licenses.rs:78-335 | every statement and every drop lowers the remaining work; only a new transaction raises it, by at most eight |
| SeatTheorems.WorkIsBounded | src/routes/licenses.rs:78-335 | in any run statements and drops number at most eight per transaction begun |
| SeatTheorems.RunSlidingWindow | src/routes/licenses.rs:174-284 | the sliding-window bound holds of every interleaved run |
| SeatTheorems.RunHeartbeat | src/routes/licenses.rs:399-412 | the heartbeat promise holds of every interleaved run |
| SeatTheorems.RunRecovers | src/routes/licenses.rs:186-195 | in every interleaved run a limit refusal is not repeated once a live device was released and no other seat taken, renewals aside, or once a window passed without a grant |
| LicenseService.CountsAgree | src/routes/licenses.rs:343-367 | counting rows with the query's filter is counting live devices |
| LicenseService.ExcludedCountsAgree | src/routes/licenses.rs:369-397 | excluding the row by id is excluding the device |
| LicenseService.Service.ActiveDeviceCount | src/routes/licenses.rs:343-367 | returns the number of live devices of the licence |
| LicenseService.Service.ActiveDeviceCountExcluding | src/routes/licenses.rs:369-397 | returns the number of live devices other than the row's own |
| LicenseService.Service.TakeSeat | src/routes/licenses.rs:162-300 | new tables and response are those of the three-path decision; a refusal or a clashing insert writes nothing |
| LicenseService.Service.Verify | src/routes/licenses.rs:59-301 | the length bounds and the two emptiness checks decide the field errors, which change nothing; otherwise tables, code, licence data and count are those of the decision on the old tables, for the bare device id that the given one pads; the heartbeat is half the window |
| LicenseService.Service.Release | src/routes/licenses.rs:303-341 | the length bounds decide the only error; otherwise it gives back the seat of the bare device id that the given one pads |
| LicenseService.ReleasedExactly | src/routes/licenses.rs:314-340 | giving back reports true exactly for an unrevoked device of the key's licence, whose row then was last seen a window and one second ago, and changes nothing else |
| LicenseService.PaddedIdsAreOneDevice | src/services/crypto.rs:48-50 | device ids that differ in surrounding white space have the same hash |
| DeviceIds.TrimExactly | src/services/crypto.rs:48-50 | trimming gives `id` if and only if `id` has no white space at its ends and the text is `id` between two stretches of white space |
| DeviceIds.PaddingVanishes | src/services/crypto.rs:48-50 | white space added on either side of a text does not change what it trims to |
| LicenseService.Service.ChangeLicenses | src/routes/admin.rs:489-513 | a back-office change of the licence table between two calls keeps the rows consistent and touches no activation |
| LicenseService.AtomicVerify | src/routes/licenses.rs:59-301 | from within the seat bound one verify decides by the lease rule, keeps the bound, and makes the granted device live |
| LicenseService.VerifyIsAnEvent | src/routes/licenses.rs:59-301 | a verify served alone from within the seat bound is one legal event of the histories the interleaved protocol leaves, with the same effect on the tables |
| LicenseService.ReleaseIsAnEvent | src/routes/licenses.rs:303-341 | so is a release served alone, whether or not it finds a seat to give back |
| LicenseService.EventsAreCalls | src/routes/licenses.rs:59-341 | every event of a legal history is a verify or release call served at the event's clock, or a change of the licence table |
| Crypto.AlphabetIsRanges | src/services/crypto.rs:8 | the alphabet is the upper-case letters and digits without I, O, 0 and 1 |
| Crypto.KeyTextShape | src/services/crypto.rs:10-24 | a key has 34 characters: the brand, then five groups of five symbols, each after a dash, the k-th symbol of group g being that of byte 5g + k |
| Crypto.SymbolIsTableEntry | src/services/crypto.rs:20 | the symbol of a byte is the table entry at its low five bits |
| Crypto.SymbolDeterminesResidue | src/services/crypto.rs:20 | two bytes share a symbol if and only if they agree modulo 32 |
| Crypto.GenerateLicenseKey | src/services/crypto.rs:10-24 | the nested loops turn any 25-byte buffer into the brand and its five dashed groups, byte for byte |
| Crypto.GeneratedKeyNormalizes | src/services/crypto.rs:26-32 | normalising a generated key gives back the brand and one symbol per byte, in order |
| Crypto.GeneratedKeyPrefix | src/services/crypto.rs:34-36 | the stored prefix is the brand and the first ten symbols |
| Crypto.PrefixIsPart | src/services/crypto.rs:34-36 | the stored prefix is the first 14 of the 29 significant characters of the key |
| Crypto.AlphanumericIs | src/services/crypto.rs:26-32 | the characters that survive normalisation are the 62 ASCII letters and digits, listed |
| Crypto.UppercaseOf | src/services/crypto.rs:26-32 | each of the 26 lower-case letters becomes its capital and every other character stays |
| Crypto.NormalizeIdempotent | src/services/crypto.rs:26-32 | normalising twice is normalising once |
| Crypto.SameKeyIffEdits | src/services/crypto.rs:26-32 | two texts are the same key if and only if inserting and removing non-alphanumerics and switching ASCII case leads from one to the other |
| Crypto.KeysAreUniform | src/services/crypto.rs:8-24 | every generated key comes from exactly 8^25 of the 256^25 buffers |
| Database.BatchAdds | src/routes/admin.rs:621-690 | a batch that commits adds exactly its rows, under distinct new ids, and changes no other licence |
| Database.BatchKeepsHashesUnique | migrations/0001_enterprise_licensing.sql:19 | a batch that commits keeps key hashes unique |
| Database.InsertFailsExactly | migrations/0001_enterprise_licensing.sql:17-32 | an insert fails exactly for a taken id or hash, or for a missing owner or creator |
| Ledger.CommitKeepsSound | migrations/0001_enterprise_licensing.sql:17-66 | every transaction keeps unique hashes and e-mails and all foreign keys |
| Ledger.CommitEvolvesLicenses | src/routes/admin.rs:264-939 | every back-office transaction keeps the hash, limit and expiry of every licence and removes none |
| Ledger.CommitAddsKeys | src/routes/admin.rs:621-709 | a transaction adds exactly the licences it returns, at most one batch, and removes none |
| Ledger.LedgerBalances | src/routes/admin.rs:341-367 | over any history the licences number the initial ones plus all keys returned; deletions never lower the total |
| Ledger.IssuedExactlyOnce | src/routes/admin.rs:588-709 | in any history a request is reviewed at most once, its status is that review's verdict, and the licences issued for it number its quantity if approved and zero otherwise, even once the request is deleted |
| Ledger.ApprovalGrantsWhatWasAsked | src/routes/admin.rs:617-674 | every licence an approval adds is the reseller's, active, with the request's device limit, its lifetime in days of 24 hours, and the approving administrator as creator |
| Ledger.IssuedAsRequested | src/routes/reseller.rs:71-103 | over any history every licence issued for a request has the device limit and lifetime of the transaction that created the request, counted from its approval, and is the reseller's until that account is deleted |
| Ledger.RequestIsAsCreated | src/routes/admin.rs:579-829 | over any history a request that is still there asks for the reseller, quantity, device limit and lifetime it was created with |
| Ledger.DeletionIsClean | src/routes/admin.rs:341-367 | no row mentions a deleted user, its keys are unowned and its active ones suspended, the reported count is that of the keys whose status changed; every other column of every key, user and request is as before up to references to the user |
| Ledger.SingleKeyChangesAgree | src/routes/admin.rs:489-513 | the status change inside the seat protocol succeeds when the back-office one does and leaves the same licence table |
| Ledger.ReturnedKeyIsStored | src/routes/admin.rs:621-690 | each returned plaintext is the text of its own draw and is stored under its id as the hash of its normal form and 14 of its 29 characters, active, never verified, with the returned limit, owner and expiry |
| Ledger.TermsOutlive | src/routes/admin.rs:489-513 | an issued licence survives every later history with its hash, limit and expiry |
| Ledger.IssuedKeysWork | src/services/crypto.rs:26-46 | every returned key, with any change of case and any inserted or removed separators, looks up exactly its own licence after any later back-office history |
| Ledger.IssuedKeysSurvive | src/routes/licenses.rs:72-104 | the same after any legal history of verifies, releases, status changes and back-office changes, in any order |
| Ledger.IssuedKeysVerify | src/routes/licenses.rs:72-111 | a verify with such a text is decided on that licence and never answered `invalid_key` |
| Ledger.RevocationLifted | src/routes/reseller.rs:239-267 | the transactions that bring a revoked key back are exactly the single-key changes to another status |
| Ledger.RevokedUntilLifted | src/routes/admin.rs:276-295 | a revoked key stays revoked throughout a history if and only if no such change is in it |
| BulkChanges.BulkNormalForm | src/routes/admin.rs:276-283 | after bulk changes a key is revoked if it was or any change revoked, otherwise it has the last change's status |
| BulkChanges.BulkSettlesKeys | src/routes/admin.rs:284-295 | a sequence of bulk changes settles every key of the owner and touches nothing else |
| BulkChanges.BulkCountsAddUp | src/routes/admin.rs:297 | the reported counts add up to the number of times a key of the owner really changed its status |
| BulkChanges.BulkCountIsReal | src/routes/admin.rs:276-297 | one bulk change reports the number of keys whose status is another one afterwards |
| BulkChanges.FilterIsExact | src/routes/admin.rs:276-283 | the status filter selects a key if and only if the change, with revocation kept, alters its status |
| Backoffice.ActorRemains | src/routes/admin.rs:220-224 | a call leaves every active administrator in place or its caller is an active administrator before and after it |
| Backoffice.AdministratorRemains | src/routes/admin.rs:332-336 | calls served one after the other always leave an active administrator |
| Backoffice.OthersStayWithinReach | src/security.rs:33-83 | any sequence of calls by accounts that are no active administrators changes no account, no key of anyone else, no key except its status, and no existing request; it issues nothing and only adds pending requests of those accounts |
| Backoffice.CallLiftsRevocation | src/routes/reseller.rs:233-246 | a successful call brings a revoked key back if and only if it is a single-key change to another status, by an active administrator or by the owning active reseller |
| Backoffice.OwnerRevivesKey | src/routes/reseller.rs:241-246 | the owning active reseller can set its revoked key to active |
| Backoffice.WhoCanRevive | src/routes/reseller.rs:233-246 | an account has a call that brings the revoked key back if and only if it is an active administrator or the active reseller owning the key |
| Backoffice.DirectKeysHaveActiveOwner | src/routes/admin.rs:851-936 | every licence direct generation adds is unowned or owned by an active account, was created by an active administrator, has the ordered limit, and expires after the ordered number of days of 24 * 60 * 60 seconds, or at the ordered time, or never |
| Backoffice.ApprovalIgnoresAccounts | src/routes/admin.rs:588-624 | an approval has the same outcome whatever the accounts under the same ids look like |
| Backoffice.Server.InsertKeys | src/routes/admin.rs:621-690 | the loop yields all rows and plaintexts of the batch, with the ordered terms and beside all old rows, or the first failing insert's error |
| Backoffice.Server.IssueKeys | src/routes/admin.rs:874-939 | the transaction of direct generation stores the whole batch or nothing |
| Backoffice.Server.IssueForRequest | src/routes/admin.rs:617-709 | the transaction of an approval stores the whole batch and the verdict, or nothing, and fails only for a conflict or a missing account |
| Backoffice.Server.ApproveKeyRequest | src/routes/admin.rs:579-725 | each error has exactly one cause among the checks; otherwise exactly the requested number of keys with the requested terms and the approval are stored, or nothing is |
| Backoffice.Server.RejectKeyRequest | src/routes/admin.rs:728-829 | succeeds exactly for an active administrator and a pending request, which becomes rejected in the administrator's name; every other request is left alone |
| Backoffice.Server.CreateLicensesForOwner | src/routes/admin.rs:831-940 | all keys are stored with the ordered limit, owner and expiry in seconds, or nothing is; a bad request is answered exactly for an oversized batch, two expiries or an inactive owner |
| Backoffice.Server.GenerateLicenses | src/routes/admin.rs:450-476 | field errors, role errors and bad requests have their exact causes; a success returns the ordered number of keys within the batch limit and adds exactly that many licences with the ordered terms; no existing licence changes, and a failure adds none |
| Backoffice.Server.SetUserLicenseStatus | src/routes/admin.rs:264-322 | succeeds exactly for an active administrator and an existing user; sets every key of that user to the status, but leaves revoked ones revoked, and returns the number of keys whose status is another one afterwards |
| Backoffice.Server.UpdateStatuses | src/routes/admin.rs:284-297 | the one update carries out the bulk change and reports the number of keys whose status is another one afterwards |
| Backoffice.Server.DeleteUserAccount | src/routes/admin.rs:324-393 | succeeds exactly for an active administrator and another existing user, after which no row mentions that user; reports the number of keys whose status changed |
| Backoffice.Server.DeleteUserRow | migrations/0001_enterprise_licensing.sql:17-66 | deleting the row applies the ON DELETE rules to keys and requests |
| Backoffice.Server.SetLicenseStatus | src/routes/admin.rs:478-530 | succeeds exactly for an active administrator and an existing licence, whose status alone changes |
| Backoffice.Server.SetMyLicenseStatus | src/routes/reseller.rs:227-284 | succeeds exactly for an active reseller that owns the licence, whose status alone changes; no licence of another owner changes |
| Backoffice.Server.CreateKeyRequest | src/routes/reseller.rs:53-120 | each error has its exact cause; a success adds one pending request with the reseller, quantity, device limit and lifetime of the call and changes no other |
| Backoffice.Server.CreateAccount | src/routes/admin.rs:159-209 | succeeds exactly for an active administrator and an unused e-mail; keeps e-mails unique and other accounts as they are; without a role the account is no administrator |
| Backoffice.Server.SetAccountStatus | src/routes/admin.rs:211-262 | succeeds exactly for an active administrator that does not switch itself off, who stays one; roles, e-mails and other accounts stay |
| IssuanceTheorems.NextKeepsInv | src/routes/admin.rs:588-709 | every statement of every review or generation, and every other transaction in between, keeps the invariant |
| IssuanceTheorems.RunsLinearise | src/routes/admin.rs:588-939 | every interleaving ends in the tables of a serial history; each committed transaction has its own place in it, and a failed or dropped one has left nothing |
| IssuanceTheorems.OneReviewWins | src/routes/admin.rs:737-798 | in every interleaving at most one review of a request commits |
| IssuanceTheorems.RunsIssueExactlyOnce | src/routes/admin.rs:588-709 | in every interleaving the licences issued for a request number its quantity once an approval has committed and zero otherwise |
| IssuanceTheorems.BatchSucceedsExactly | src/routes/admin.rs:621-690 | a batch of inserts goes through if and only if its ids and hashes are new and distinct and its owner and creator exist |
| IssuanceTheorems.FailuresAreReal | src/routes/admin.rs:588-709 | where a statement of an interleaved transaction fails, the whole transaction alone on the committed tables would fail with the same error |
| IssuanceTheorems.WaitsForAnother | src/routes/admin.rs:588-709 | an unfinished transaction waits only for another one's request lock or for another one's uncommitted row with the same id or hash |
| Listing.GroupCount | src/routes/admin.rs:424-434 | the counted rows of a licence's group are its live activation rows, each once |
| Listing.ListingIsExact | src/routes/admin.rs:395-448 | each licence the query asks for is listed exactly once and nothing else is, with its owner's e-mail if it has an owner, and the count a verify would make at the same cutoff |
| Listing.OwnListingIsFiltered | src/routes/reseller.rs:187-215 | a reseller's listing is the administrator's, restricted to the licences the reseller owns |

## Left out

- HTTP routing, headers, CORS, compression, static files and the web panel: plumbing and user interface.
- HMAC-SHA256, Argon2 and JWT internals: a digest is any function, the authenticated user id is an input; a clash of key hashes makes the insert fail.
- SQL text, casts, row decoding and date parsing: timestamps are whole seconds, tables are maps.
- SQLite's isolation: its lock clause is empty, so the step models are the PostgreSQL ones with `FOR UPDATE`.
- Audit events, `updated_at` and `created_at`, device labels, application and network fields, notes and their length checks, message texts and `server_time`: they decide nothing.
- Parsing of role and status strings, validation and lower-casing of e-mail addresses, passwords: an account's e-mail is taken as it is stored.
- Order and paging of the listings, and the role checks in front of them; the listings of users and requests.
- Environment reading and database set-up: only the batch limit and the window are kept, as parameters.
- Bulk status changes and user deletion inside the seat protocol's deadlock theorem: they lock several rows in an order the code does not fix, so they appear there as one step that leaves locked licence rows alone.
- Deadlock between issuing transactions: `IssuanceTheorems.WaitsForAnother` says what an insert can wait for; whether two such waits can block each other is not examined.
- The active-administrator result and the owner check of direct generation under interleaved calls: their checks stand outside the transactions that write.
- Request ids as fresh UUIDs: the issuance results assume that no id is created twice.
- Unicode tables: the white space around a device id is the list `DeviceIds.WHITE_SPACE`, written out from the White_Space property; the length checks count characters.
