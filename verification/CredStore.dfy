/** The credential store of internal/credstore: two keychain entries and one config file, written in an
    order such that a crash between any two operations leaves the active key recoverable. */
module CredStore {
  import opened Seqs
  import opened Api
  import opened ConfigFile

  datatype Account = ActiveKey | PendingKey

  /** What survives a crash. */
  datatype Disk = Disk(active: Option<string>, pending: Option<string>, file: Option<Config>)

  /** How one operation goes. A keychain write may land although it reports a failure, and may not land
      although it reports success; the config file is replaced exactly when the save succeeds. */
  datatype Outcome = Outcome(ok: bool, wrote: bool)

  datatype Status = Unknown | Active | Forced | NoKey | Fallback | ScrubLeft | ReadFailed | KeyMissing | DiscardLeft

  function Scrubbed(cfg: Config): Config { cfg.(collectorKey := "", pendingKey := "", backend := InKeychain) }

  // ---------- what a restart finds ----------

  /** The keys of a config; no pending key is "". */
  datatype Keys = Keys(active: string, pending: string)

  /** What Load returns after a restart at `d` when its keychain reads succeed; None is its error. */
  function Reload(keychain: bool, d: Disk): Option<Keys> {
    if d.file.None? then None
    else if d.file.value.backend == InFile then Some(Keys(d.file.value.collectorKey, d.file.value.pendingKey))
    else if !keychain || d.active.None? then None
    else Some(Keys(d.active.value, if d.file.value.pendingKeyId != 0 && d.pending.Some? then d.pending.value
                                   else if d.file.value.pendingKeyId != 0 then "" else d.file.value.pendingKey))
  }

  /** A pending key and its id are set and cleared together. */
  predicate Paired(cfg: Config) { cfg.pendingKey != "" <==> cfg.pendingKeyId != 0 }

  /** A stored config: scrubbed when the keychain holds the keys, paired otherwise. */
  predicate Tidy(d: Disk) {
    d.file.Some? ==>
      && (d.file.value.backend == InFile ==> Paired(d.file.value))
      && (d.file.value.backend == InKeychain ==> d.file.value.collectorKey == "" && d.file.value.pendingKey == "")
  }

  function PendingEntry(cfg: Config): Option<string> { if cfg.pendingKey == "" then None else Some(cfg.pendingKey) }

  /** Keychain entries on the way from `d0` to those of `cfg`: the pending one only moves once the active
      one is in place. */
  predicate Between(d0: Disk, d: Disk, cfg: Config) {
    && d.file == d0.file
    && (d.active == d0.active || d.active == Some(cfg.collectorKey))
    && (d.pending == d0.pending || (d.pending == PendingEntry(cfg) && d.active == Some(cfg.collectorKey)))
  }

  /** A set at operation `at` and the read that follows it succeed, and the entry is then the secret: the set landed,
      or the entry was the secret before. */
  predicate Verifies(env: nat -> Outcome, at: nat, prior: Option<string>, secret: string) {
    env(at).ok && env(at + 1).ok && (env(at).wrote || prior == Some(secret))
  }

  /** Both keys of `cfg` can be verified in the keychain from operation `at` on. */
  predicate Secures(env: nat -> Outcome, at: nat, d: Disk, cfg: Config) {
    && Verifies(env, at, d.active, cfg.collectorKey)
    && (cfg.pendingKey != "" ==> Verifies(env, at + 2, d.pending, cfg.pendingKey))
  }

  ghost predicate AllWork(env: nat -> Outcome) { forall i: nat :: env(i).ok && env(i).wrote }

  /** The file now carries `cfg`, in plain or with its keys in verified keychain entries. */
  predicate Written(d: Disk, cfg: Config) {
    d.file.Some? &&
    (d.file.value == cfg.(backend := InFile)
     || (d.file.value == Scrubbed(cfg) && d.active == Some(cfg.collectorKey)
         && (cfg.pendingKey != "" ==> d.pending == Some(cfg.pendingKey))))
  }

  /** With paired configs, the keys change together but for one order: new active key, old pending key. */
  lemma SaveRecoversKeys(keychain: bool, d0: Disk, d: Disk, cfg: Config)
    requires cfg.collectorKey != "" && Paired(cfg) && Tidy(d0) && Reload(keychain, d0).Some?
    requires Between(d0, d, cfg) || Written(d, cfg)
    requires d.file.Some? && d.file.value.backend == InKeychain && Written(d, cfg) ==> keychain
    ensures Reload(keychain, d).Some? && Tidy(d)
    ensures Reload(keychain, d).value in
              {Reload(keychain, d0).value, Keys(cfg.collectorKey, Reload(keychain, d0).value.pending),
               Keys(cfg.collectorKey, cfg.pendingKey)}
  {
  }

  // ---------- the store ----------

  class Store {
    const keychain: bool              // a keychain backend; otherwise the plaintext file is the only store
    const env: nat -> Outcome
    var disk: Disk
    var clock: nat                    // operations performed
    var status: Status
    ghost var crashes: seq<Disk>      // the disk after each operation that may change it

    constructor (keychain: bool, env: nat -> Outcome, disk: Disk)
      ensures this.keychain == keychain && this.env == env && this.disk == disk && clock == 0 && crashes == []
    {
      this.keychain, this.env, this.disk := keychain, env, disk;
      clock, status, crashes := 0, Unknown, [];
    }

    // ----- single operations -----

    method InnerLoad() returns (cfg: Option<Config>)
      modifies this`clock
      ensures clock == old(clock) + 1
      ensures cfg == if env(old(clock)).ok then disk.file else None
    {
      cfg := if env(clock).ok then disk.file else None;
      clock := clock + 1;
    }

    method InnerSave(cfg: Config) returns (ok: bool)
      modifies this`clock, this`disk, this`crashes
      ensures clock == old(clock) + 1 && ok == env(old(clock)).ok
      ensures disk == if ok then old(disk).(file := Some(cfg)) else old(disk)
      ensures crashes == old(crashes) + [disk]
    {
      ok := env(clock).ok;
      if ok {
        disk := disk.(file := Some(cfg));
      }
      clock := clock + 1;
      crashes := crashes + [disk];
    }

    method Get(account: Account) returns (ok: bool, found: Option<string>)
      modifies this`clock
      ensures clock == old(clock) + 1 && ok == (!keychain || env(old(clock)).ok)
      ensures found == if !keychain || !ok then None else if account == ActiveKey then disk.active else disk.pending
    {
      ok := !keychain || env(clock).ok;
      found := if !keychain || !ok then None else if account == ActiveKey then disk.active else disk.pending;
      clock := clock + 1;
    }

    method Put(account: Account, secret: Option<string>) returns (ok: bool)
      modifies this`clock, this`disk, this`crashes
      ensures clock == old(clock) + 1 && ok == env(old(clock)).ok
      ensures disk == if !env(old(clock)).wrote then old(disk) else Entered(old(disk), account, secret)
      ensures crashes == old(crashes) + [disk]
    {
      ok := env(clock).ok;
      if env(clock).wrote {
        disk := Entered(disk, account, secret);
      }
      clock := clock + 1;
      crashes := crashes + [disk];
    }

    // ----- writing -----

    /** Set, then read back. */
    method WriteVerified(account: Account, secret: string) returns (ok: bool)
      modifies this`clock, this`disk, this`crashes
      ensures keychain ==>
                (ok <==> Verifies(env, old(clock), if account == ActiveKey then old(disk).active else old(disk).pending,
                                  secret))
      ensures ok ==> clock == old(clock) + 2
      ensures disk == old(disk) || disk == Entered(old(disk), account, Some(secret))
      ensures ok ==> disk == Entered(old(disk), account, Some(secret))
      ensures crashes == old(crashes) + [disk]
    {
      ok := Put(account, Some(secret));
      if !ok {
        return;
      }
      var read, found := Get(account);
      ok := read && found == Some(secret);
    }

    /** The active key, then the pending key or the removal of a stale one. */
    method WriteSecrets(cfg: Config) returns (ok: bool)
      modifies this`clock, this`disk, this`crashes
      ensures Between(old(disk), disk, cfg) && PassedBetween(old(disk), cfg, old(crashes), crashes)
      ensures ok ==>
                disk.active == Some(cfg.collectorKey) && (cfg.pendingKey != "" ==> disk.pending == Some(cfg.pendingKey))
      ensures keychain ==> (ok <==> Secures(env, old(clock), old(disk), cfg))
      ensures ok ==> clock == old(clock) + if cfg.pendingKey == "" then 3 else 4
    {
      ok := WriteVerified(ActiveKey, cfg.collectorKey);
      if !ok {
        return;
      }
      if cfg.pendingKey == "" {
        var _ := Put(PendingKey, None);
        return true;
      }
      ok := WriteVerified(PendingKey, cfg.pendingKey);
    }

    method SaveScrubbed(cfg: Config) returns (ok: bool, cfg': Config)
      modifies this`clock, this`disk, this`crashes, this`status
      ensures clock == old(clock) + 1 && ok == env(old(clock)).ok
      ensures disk == if ok then old(disk).(file := Some(Scrubbed(cfg))) else old(disk)
      ensures crashes == old(crashes) + [disk]
      ensures status == if ok then Active else old(status)
      ensures cfg' == if ok then cfg.(backend := InKeychain) else cfg
    {
      cfg' := cfg;
      ok := InnerSave(Scrubbed(cfg));
      if ok {
        cfg' := cfg.(backend := InKeychain);
        status := Active;
      }
    }

    /** Persist `cfg`: into the keychain and a scrubbed file, or in plain on any keychain failure. At every
        crash point on the way the disk is still between the old entries and the new ones, or written. */
    method Save(cfg: Config) returns (ok: bool)
      modifies this`clock, this`disk, this`crashes, this`status
      ensures cfg.collectorKey != "" ==> SavesThrough(keychain, old(disk), cfg, old(crashes), crashes)
      ensures cfg.collectorKey != "" ==> IsSavePoint(keychain, old(disk), disk, cfg)
      ensures cfg.collectorKey != "" ==> NeverNone(keychain, old(disk), cfg, old(crashes), crashes)
      ensures ok ==>
                Written(disk, cfg) && (disk.file.value.backend == InKeychain ==> keychain && cfg.collectorKey != "")
      ensures ok && Paired(cfg) ==> Reload(keychain, disk) == Some(Keys(cfg.collectorKey, cfg.pendingKey))
      ensures ok ==> (status == Active <==> disk.file.value.backend == InKeychain)
      ensures keychain && cfg.collectorKey != "" && Secures(env, old(clock), old(disk), cfg) ==>
                && ok == env(old(clock) + if cfg.pendingKey == "" then 3 else 4).ok
                && (ok ==> disk.file == Some(cfg.(collectorKey := "", pendingKey := "", backend := InKeychain)))
                && disk.active == Some(cfg.collectorKey)
                && (cfg.pendingKey != "" ==> disk.pending == Some(cfg.pendingKey))
      ensures keychain && cfg.collectorKey != "" && !Secures(env, old(clock), old(disk), cfg) ==>
                disk.file == if ok then Some(cfg.(backend := InFile)) else old(disk).file
      ensures status == if !keychain then Forced
                        else if cfg.collectorKey == "" then NoKey
                        else if !Secures(env, old(clock), old(disk), cfg) then Fallback
                        else if ok then Active else old(status)
      ensures !keychain || cfg.collectorKey == "" ==>
                disk == (if ok then old(disk).(file := Some(cfg.(backend := InFile))) else old(disk))
                && crashes == old(crashes) + [disk]
      ensures AllWork(env) ==> ok
    {
      if !keychain {
        status := Forced;
        ok := InnerSave(cfg.(backend := InFile));
        return;
      }
      if cfg.collectorKey == "" {
        status := NoKey;
        ok := InnerSave(cfg.(backend := InFile));
        return;
      }
      var secured := WriteSecrets(cfg);
      if !secured {
        status := Fallback;
        ok := InnerSave(cfg.(backend := InFile));
        return;
      }
      var saved;
      ok, saved := SaveScrubbed(cfg);
    }

    // ----- reading -----

    /** Drop a pending key that cannot be read, here and on disk. */
    method HydratePending(cfg: Config) returns (cfg': Config)
      requires keychain && disk.file.Some? && disk.file.value.backend == InKeychain
      requires disk.active == Some(cfg.collectorKey) && cfg == disk.file.value.(collectorKey := cfg.collectorKey)
      modifies this`clock, this`disk, this`crashes, this`status
      ensures env(old(clock)).ok && old(disk).pending.Some? ==>
                cfg' == cfg.(pendingKey := old(disk).pending.value) && disk == old(disk) && crashes == old(crashes)
      ensures !(env(old(clock)).ok && old(disk).pending.Some?) ==>
                && cfg' == Discarded(cfg) && crashes == old(crashes) + [disk]
                && disk == if env(old(clock) + 1).ok then old(disk).(file := Some(Scrubbed(Discarded(cfg))))
                   else old(disk)
    {
      var read, found := Get(PendingKey);
      if read && found.Some? {
        return cfg.(pendingKey := found.value);
      }
      var saved;
      saved, cfg' := SaveScrubbed(Discarded(cfg));
      if !saved {
        status := DiscardLeft;
      }
    }

    /** The active key is fatal to lose, the pending one is not. */
    method Hydrate(cfg: Config) returns (cfg': Option<Config>)
      requires disk.file == Some(cfg) && cfg.backend == InKeychain
      modifies this`clock, this`disk, this`crashes, this`status
      ensures status ==
                if cfg'.Some? then Active else if keychain && !env(old(clock)).ok then ReadFailed else KeyMissing
      ensures cfg'.None? <==> !keychain || !env(old(clock)).ok || old(disk).active.None?
      ensures cfg'.None? ==> disk == old(disk) && crashes == old(crashes)
      ensures cfg'.Some? ==>
                var full := cfg.(collectorKey := old(disk).active.value);
                var unread := cfg.pendingKeyId != 0 && !(env(old(clock) + 1).ok && old(disk).pending.Some?);
                && (unread ==>
                      && cfg'.value == Discarded(full) && crashes == old(crashes) + [disk]
                      && disk == if env(old(clock) + 2).ok then old(disk).(file := Some(Scrubbed(Discarded(full))))
                         else old(disk))
                && (!unread ==>
                      && disk == old(disk) && crashes == old(crashes)
                      && cfg'.value ==
                           if cfg.pendingKeyId != 0 then full.(pendingKey := old(disk).pending.value) else full)
    {
      var read, found := Get(ActiveKey);
      if !read {
        status := ReadFailed;
        return None;
      }
      if found.None? {
        status := KeyMissing;
        return None;
      }
      var full := cfg.(collectorKey := found.value);
      if full.pendingKeyId != 0 {
        full := HydratePending(full);
      }
      status := Active;
      cfg' := Some(full);
    }

    /** Move a plaintext key into the keychain; any failure leaves the plaintext copy in place. */
    method MigrateOnLoad(cfg: Config) returns (cfg': Config)
      requires disk.file == Some(cfg) && cfg.backend == InFile
      modifies this`clock, this`disk, this`crashes, this`status
      ensures cfg' == cfg.(backend := cfg'.backend)
      ensures disk.file == Some(cfg) || Written(disk, cfg)
      ensures Migrates(keychain, cfg, old(crashes), crashes) && IsMigrationPoint(keychain, cfg, disk)
      ensures cfg'.backend == InKeychain <==>
                && keychain && cfg.collectorKey != "" && Secures(env, old(clock), old(disk), cfg)
                && env(old(clock) + if cfg.pendingKey == "" then 3 else 4).ok
      ensures cfg'.backend == InKeychain ==>
                && disk.file == Some(cfg.(collectorKey := "", pendingKey := "", backend := InKeychain))
                && disk.active == Some(cfg.collectorKey)
                && (cfg.pendingKey != "" ==> disk.pending == Some(cfg.pendingKey))
      ensures cfg'.backend == InFile ==> disk.file == Some(cfg)
      ensures status == if !keychain then Forced
                        else if cfg.collectorKey == "" then NoKey
                        else if !Secures(env, old(clock), old(disk), cfg) then Fallback
                        else if cfg'.backend == InKeychain then Active else ScrubLeft
    {
      cfg' := cfg;
      if !keychain {
        status := Forced;
        return;
      }
      if cfg.collectorKey == "" {
        status := NoKey;
        return;
      }
      var secured := WriteSecrets(cfg);
      if !secured {
        status := Fallback;
        return;
      }
      var saved;
      saved, cfg' := SaveScrubbed(cfg);
      if !saved {
        status := ScrubLeft;
      }
    }

    /** The active key is what a restart would have found, at the return and at every crash point; the
        pending key too, unless its entry could not be read and was dropped. */
    method Load() returns (cfg: Option<Config>)
      modifies this`clock, this`disk, this`crashes, this`status
      ensures cfg.Some? ==>
                Reload(keychain, old(disk)).Some? && cfg.value.collectorKey == Reload(keychain, old(disk)).value.active
      ensures cfg.None? <==> !env(old(clock)).ok || Reload(keychain, old(disk)).None?
                             || (old(disk).file.value.backend == InKeychain && !env(old(clock) + 1).ok)
      ensures cfg.None? ==> disk == old(disk) && crashes == old(crashes)
      ensures cfg.Some? && Unread(keychain, old(disk), env, old(clock)) ==>
                && cfg.value.pendingKey == "" && cfg.value.pendingKeyId == 0
                && crashes == old(crashes) + [disk]
                && disk == if env(old(clock) + 3).ok
                           then old(disk).(file := Some(Scrubbed(Discarded(old(disk).file.value)))) else old(disk)
      ensures cfg.Some? && !Unread(keychain, old(disk), env, old(clock)) ==>
                cfg.value.pendingKey == Reload(keychain, old(disk)).value.pending
                && cfg.value.pendingKeyId == old(disk).file.value.pendingKeyId
      ensures cfg.Some? && !Unread(keychain, old(disk), env, old(clock)) && Tidy(old(disk)) ==>
                Unchanged(keychain, old(disk), old(crashes), crashes)
                && Reload(keychain, disk) == Reload(keychain, old(disk)) && Tidy(disk)
      ensures cfg.Some? ==> SameSettings(cfg.value, old(disk).file.value)
      ensures ActiveKept(keychain, old(disk), old(crashes), crashes)
      ensures cfg.Some? && old(disk).file.value.backend == InFile ==>
                var file := old(disk).file.value;
                if keychain && file.collectorKey != "" && Secures(env, old(clock) + 1, old(disk), file)
                   && env(old(clock) + 1 + if file.pendingKey == "" then 3 else 4).ok
                then disk.file == Some(file.(collectorKey := "", pendingKey := "", backend := InKeychain))
                     && cfg.value == file.(backend := InKeychain)
                else disk.file == Some(file) && cfg.value == file
    {
      cfg := InnerLoad();
      if cfg.None? {
        return;
      }
      if cfg.value.backend == InKeychain {
        cfg := Hydrate(cfg.value);
        return;
      }
      var migrated := MigrateOnLoad(cfg.value);
      cfg := Some(migrated);
    }

    /** commitPendingKey: reload, make the verified key the active one, save. It stays recoverable, as
        pending key before and active key after, at every crash point exactly when the reload did not drop
        it for an unreadable keychain entry. */
    method CommitPendingKey(verified: string, keyId: int, expires: TimeText) returns (committed: bool)
      requires Tidy(disk) && verified != "" && Reload(keychain, disk).Some?
      requires Reload(keychain, disk).value.pending == verified && Reload(keychain, disk).value.active != verified
      modifies this`clock, this`disk, this`crashes, this`status
      ensures HeldThroughout(keychain, verified, old(crashes), crashes) <==>
              !(Drops(keychain, old(disk), env, old(clock)) && env(old(clock) + 3).ok)
      ensures ActiveIn(keychain, Reload(keychain, old(disk)).value.active, verified, old(crashes), crashes)
      ensures committed ==> Reload(keychain, disk) == Some(Keys(verified, ""))
      ensures committed ==>
                var file := disk.file.value;
                file.keyId == keyId && file.keyExpiresAt == expires && file.pendingKeyId == 0
                && file.rotationFailures == 0
      ensures AllWork(env) ==> committed && (disk.file.value.backend == InKeychain <==> keychain)
    {
      var loaded := Load();
      if loaded.None? {
        return false;
      }
      ghost var reloaded, mid := disk, crashes;
      var cfg := Discarded(loaded.value).(collectorKey := verified, keyId := keyId, keyExpiresAt := expires,
                                          rotationFailures := 0);
      committed := Save(cfg);
      if Drops(keychain, old(disk), env, old(clock)) && env(old(clock) + 3).ok {
        assert crashes[|old(crashes)|] == reloaded && Reload(keychain, reloaded).value.pending == "";
      } else {
        assert Reload(keychain, reloaded) == Reload(keychain, old(disk));
        CommitHolds(keychain, reloaded, cfg, mid, crashes);
      }
    }
  }

  predicate IsMigrationPoint(keychain: bool, cfg: Config, d: Disk) {
    d.file == Some(cfg) || (keychain && cfg.collectorKey != "" && Written(d, cfg))
  }

  /** No crash point loses the active key or changes it. */
  ghost predicate ActiveKept(keychain: bool, d0: Disk, before: seq<Disk>, after: seq<Disk>) {
    before <= after && forall i :: |before| <= i < |after| && Reload(keychain, d0).Some? ==>
      Reload(keychain, after[i]).Some? && Reload(keychain, after[i]).value.active == Reload(keychain, d0).value.active
  }

  ghost predicate Unchanged(keychain: bool, d0: Disk, before: seq<Disk>, after: seq<Disk>) {
    before <= after && forall i :: |before| <= i < |after| ==> Reload(keychain, after[i]) == Reload(keychain, d0)
  }

  ghost predicate Migrates(keychain: bool, cfg: Config, before: seq<Disk>, after: seq<Disk>) {
    before <= after && forall i :: |before| <= i < |after| ==> IsMigrationPoint(keychain, cfg, after[i])
  }

  function Entered(d: Disk, account: Account, secret: Option<string>): Disk {
    if account == ActiveKey then d.(active := secret) else d.(pending := secret)
  }

  predicate IsSavePoint(keychain: bool, d0: Disk, d: Disk, cfg: Config) {
    Between(d0, d, cfg) || (Written(d, cfg) && (d.file.value.backend == InKeychain ==> keychain))
  }

  ghost predicate PassedBetween(d0: Disk, cfg: Config, before: seq<Disk>, after: seq<Disk>) {
    before <= after && forall i :: |before| <= i < |after| ==> Between(d0, after[i], cfg)
  }

  /** Every crash point recovers the old active key or the new one, and one of them if there was one. */
  ghost predicate NeverNone(keychain: bool, d0: Disk, cfg: Config, before: seq<Disk>, after: seq<Disk>) {
    before <= after && forall i :: |before| <= i < |after| ==>
      && (Reload(keychain, d0).Some? ==> Reload(keychain, after[i]).Some?)
      && (Reload(keychain, after[i]).Some? ==>
            || Reload(keychain, after[i]).value.active == cfg.collectorKey
            || (Reload(keychain, d0).Some?
                && Reload(keychain, after[i]).value.active == Reload(keychain, d0).value.active))
  }

  ghost predicate SavesThrough(keychain: bool, d0: Disk, cfg: Config, before: seq<Disk>, after: seq<Disk>) {
    before <= after && forall i :: |before| <= i < |after| ==> IsSavePoint(keychain, d0, after[i], cfg)
  }

  // ---------- loading and committing ----------

  /** Saving over a state in which the new key is pending holds it throughout. */
  lemma CommitHolds(keychain: bool, d0: Disk, cfg: Config, before: seq<Disk>, after: seq<Disk>)
    requires cfg.collectorKey != "" && Paired(cfg) && Tidy(d0) && Reload(keychain, d0).Some?
    requires Reload(keychain, d0).value.pending == cfg.collectorKey
    requires SavesThrough(keychain, d0, cfg, before, after)
    ensures HeldThroughout(keychain, cfg.collectorKey, before, after)
  {
    forall i | |before| <= i < |after|
      ensures Reload(keychain, after[i]).Some? &&
              (Reload(keychain, after[i]).value.active == cfg.collectorKey
               || Reload(keychain, after[i]).value.pending == cfg.collectorKey) {
      assert IsSavePoint(keychain, d0, after[i], cfg);
      SaveRecoversKeys(keychain, d0, after[i], cfg);
    }
  }

  /** A verified pending key is held by the keychain and its entry cannot be read. */
  predicate Drops(keychain: bool, d: Disk, env: nat -> Outcome, n: nat) {
    && keychain && d.file.Some? && d.file.value.backend == InKeychain
    && env(n).ok && env(n + 1).ok && !env(n + 2).ok
  }

  /** A restart finds the key as active or pending at every crash point. */
  ghost predicate HeldThroughout(keychain: bool, key: string, before: seq<Disk>, after: seq<Disk>) {
    before <= after && forall i :: |before| <= i < |after| ==>
      Reload(keychain, after[i]).Some? &&
      (Reload(keychain, after[i]).value.active == key || Reload(keychain, after[i]).value.pending == key)
  }

  ghost predicate ActiveIn(keychain: bool, a: string, b: string, before: seq<Disk>, after: seq<Disk>) {
    before <= after && forall i :: |before| <= i < |after| ==>
      Reload(keychain, after[i]).Some?
      && (Reload(keychain, after[i]).value.active == a || Reload(keychain, after[i]).value.active == b)
  }

  /** The keychain holds the key, and the pending entry could not be read although the id names one. */
  predicate Unread(keychain: bool, d: Disk, env: nat -> Outcome, n: nat) {
    && keychain && d.file.Some? && d.file.value.backend == InKeychain && d.active.Some?
    && d.file.value.pendingKeyId != 0
    && env(n).ok && env(n + 1).ok && !(env(n + 2).ok && d.pending.Some?)
  }

  // ---------- a commit that loses the key ----------

  /** A keychain-backed file with a rotation under way: active key `active`, pending key `verified`. */
  function MidRotation(active: string, verified: string, id: int): Disk {
    Disk(Some(active), Some(verified),
         Some(Config("", 0, Garbled, "", id, Garbled, Garbled, Garbled, 0, None, Policy(0, 0, false), InKeychain)))
  }

  /** Every operation succeeds but the read of the pending entry, the third one. */
  function PendingUnreadable(): nat -> Outcome { n => Outcome(n != 2, true) }

  /** The drop is reachable, and the file it writes leaves the verified key in no restart's hands. */
  lemma DropLosesKey(active: string, verified: string, id: int)
    requires active != verified && verified != "" && id != 0
    ensures var d := MidRotation(active, verified, id);
            && Tidy(d) && Reload(true, d) == Some(Keys(active, verified))
            && Drops(true, d, PendingUnreadable(), 0) && PendingUnreadable()(3).ok
            && Reload(true, d.(file := Some(Scrubbed(Discarded(d.file.value))))) == Some(Keys(active, ""))
  {
  }

  /** That run: a commit on such a disk, at one of whose crash points no restart finds the verified key. */
  method CommitLosesKey(active: string, verified: string, id: int) returns (store: Store, committed: bool)
    requires active != verified && verified != "" && id != 0
    ensures fresh(store) && !HeldThroughout(true, verified, [], store.crashes)
  {
    DropLosesKey(active, verified, id);
    store := new Store(true, PendingUnreadable(), MidRotation(active, verified, id));
    committed := store.CommitPendingKey(verified, id, Garbled);
  }
}
