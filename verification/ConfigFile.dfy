/** The persisted configuration of internal/config and the policy accessors of internal/api. */
module ConfigFile {
  import opened Seqs
  import opened Api

  /** Config.CredentialBackend: whether the keys live in the keychain. */
  datatype Marker = InFile | InKeychain

  datatype Policy = Policy(flushIntervalSeconds: int, maxBatchSize: int, inventoryEnabled: bool)

  /** The standardized codes of a 401. */
  datatype Code = KeyInvalid | KeyRevoked | KeyExpired | KeyRotated | Unrecognized(text: string)

  /** An empty or unparseable time is Garbled. */
  datatype Config = Config(
    collectorKey: string,
    keyId: int,
    keyExpiresAt: TimeText,
    pendingKey: string,
    pendingKeyId: int,
    pendingKeyExpires: TimeText,
    oldKeyValidUntil: TimeText,
    lastRotationAt: TimeText,
    rotationFailures: int,
    authReason: Option<Code>,
    policy: Policy,
    backend: Marker)

  /** Forget a rotation that is over or cannot go on. */
  function Discarded(cfg: Config): Config {
    cfg.(pendingKey := "", pendingKeyId := 0, pendingKeyExpires := Garbled, oldKeyValidUntil := Garbled)
  }

  /** Equal but for keys, rotation state and where the keys live. */
  predicate SameSettings(a: Config, b: Config) {
    Discarded(a).(collectorKey := "", backend := InFile) == Discarded(b).(collectorKey := "", backend := InFile)
  }

  const MAX_INGEST_BATCH := 2000

  function FlushInterval(p: Policy): (r: Time)
    ensures r > 0
  {
    (if p.flushIntervalSeconds <= 0 then 30 else p.flushIntervalSeconds) * SECOND
  }

  function BatchSize(p: Policy): (r: int)
    ensures p.maxBatchSize <= 0 ==> r == 500
    ensures 0 < p.maxBatchSize <= 2000 ==> r == p.maxBatchSize
    ensures p.maxBatchSize > 2000 ==> r == 2000
  {
    var n := if p.maxBatchSize <= 0 then 500 else p.maxBatchSize;
    if n > MAX_INGEST_BATCH then MAX_INGEST_BATCH else n
  }
}
