/**
 Rows of the licensing database, and the small result types the other modules share.
 Timestamps are whole seconds; identifiers are abstract numbers standing for UUIDs.
 */
module Models {

  datatype Option<+T> = None | Some(value: T)

  datatype Result<+T, +E> = Ok(value: T) | Err(error: E)

  /** The error classes a handler can answer with; the texts are left out. */
  datatype AppError = BadRequest | Validation | Unauthorized | Forbidden | NotFound | Conflict | Internal

  type Time = int
  type UserId = nat
  type LicenseId = nat
  type RequestId = nat
  type ActivationId = nat
  type Digest = string

  /** What a `CHECK (column > 0)` constraint leaves of an INTEGER column. */
  type Positive = n: int | n > 0 witness 1

  const SECONDS_PER_DAY := 86400

  datatype Role = Admin | Reseller
  datatype LicenseStatus = Active | Suspended | Revoked
  datatype RequestStatus = Pending | Approved | Rejected

  datatype User = User(email: string, role: Role, isActive: bool)

  /** `origin` is no column: it records which approval inserted the row, so that issuance can be stated
      without trusting the free-form metadata column. */
  datatype License = License(
    keyPrefix: string,
    keyHash: Digest,
    owner: Option<UserId>,
    createdBy: Option<UserId>,
    status: LicenseStatus,
    maxDevices: Positive,
    expiresAt: Option<Time>,
    lastVerifiedAt: Option<Time>,
    origin: Option<RequestId>)

  datatype Activation = Activation(
    licenseId: LicenseId,
    deviceHash: Digest,
    lastSeenAt: Time,
    revokedAt: Option<Time>)

  datatype KeyRequest = KeyRequest(
    reseller: UserId,
    quantity: Positive,
    maxDevices: Positive,
    ttlDays: Positive,
    status: RequestStatus,
    reviewedBy: Option<UserId>)

  /** `key_hash TEXT NOT NULL UNIQUE`. */
  ghost predicate UniqueHashes(licenses: map<LicenseId, License>) {
    forall a, b :: a in licenses && b in licenses && licenses[a].keyHash == licenses[b].keyHash ==> a == b
  }

  /** `WHERE key_hash = $1`: the row with that hash, if there is one. */
  ghost function Lookup(licenses: map<LicenseId, License>, keyHash: Digest): (r: Option<LicenseId>)
    ensures r.Some? ==> r.value in licenses && licenses[r.value].keyHash == keyHash
    ensures r.None? ==> forall l :: l in licenses ==> licenses[l].keyHash != keyHash
  {
    if l :| l in licenses && licenses[l].keyHash == keyHash then Some(l) else None
  }
}
