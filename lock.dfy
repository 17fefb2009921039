/**
 * The single-run lock file `backfill-lock.json`: taken when absent, corrupt,
 * held by a dead process or older than 30 minutes; otherwise refused.
 */
module Lock {
  import opened JsString

  const StaleThresholdMs := 30 * 60 * 1000

  /** The lock file's content: a parsed record, or something `JSON.parse` rejects. */
  datatype LockFile = LockData(pid: int, acquiredAt: string, hostname: string) | CorruptLock

  /**
   * Whether an existing lock is respected. `isAlive` is the `process.kill(pid, 0)` probe and
   * `parseDate` is `Date.parse` (`None` for NaN, whose comparison with the threshold is false).
   */
  predicate HeldByOther(existing: LockFile, nowMs: int, isAlive: int -> bool, parseDate: string -> Option<int>) {
    existing.LockData? && isAlive(existing.pid) &&
    parseDate(existing.acquiredAt).Some? && nowMs - parseDate(existing.acquiredAt).value < StaleThresholdMs
  }

  class ProcessLock {
    /** `None` when no lock file exists. */
    var lock: Option<LockFile>

    constructor (lock: Option<LockFile>)
      ensures this.lock == lock
    {
      this.lock := lock;
    }

    /**
     * `acquireLock(stateDir)`: `writeOk` says whether writing the new lock file succeeds; the
     * removal of a stale, dead or corrupt lock always succeeds (its failure is ignored in the
     * source and the write overwrites the file anyway).
     */
    method AcquireLock(nowMs: int, nowIso: string, myPid: int, host: string,
                       isAlive: int -> bool, parseDate: string -> Option<int>, writeOk: bool)
      returns (acquired: bool)
      modifies this
      ensures old(lock).Some? && HeldByOther(old(lock).value, nowMs, isAlive, parseDate) ==>
        !acquired && lock == old(lock)
      ensures !(old(lock).Some? && HeldByOther(old(lock).value, nowMs, isAlive, parseDate)) ==>
        acquired == writeOk &&
        lock == (if writeOk then Some(LockData(myPid, nowIso, host)) else None)
    {
      if lock.Some? {
        match lock.value {
          case LockData(pid, acquiredAt, _) =>
            if isAlive(pid) {
              var acquiredMs := parseDate(acquiredAt);
              if acquiredMs.Some? && nowMs - acquiredMs.value < StaleThresholdMs {
                return false;
              }
            }
          case CorruptLock =>
        }
        lock := None;
      }
      if !writeOk {
        return false;
      }
      lock := Some(LockData(myPid, nowIso, host));
      return true;
    }

    /** `releaseLock(stateDir)`: removes the lock whoever holds it. */
    method ReleaseLock()
      modifies this
      ensures lock == None
    {
      if lock.Some? {
        lock := None;
      }
    }
  }

  /** A lock file that cannot be read or parsed is never held: the next run replaces it. */
  lemma CorruptLockIsReplaced(nowMs: int, isAlive: int -> bool, parseDate: string -> Option<int>)
    ensures !HeldByOther(CorruptLock, nowMs, isAlive, parseDate)
  {
  }

  /** A live holder whose timestamp does not parse loses the lock: the NaN age compares false. */
  lemma UnparsableDateIsStolen(pid: int, acquiredAt: string, host: string, nowMs: int,
                               isAlive: int -> bool, parseDate: string -> Option<int>)
    requires parseDate(acquiredAt).None?
    ensures !HeldByOther(LockData(pid, acquiredAt, host), nowMs, isAlive, parseDate)
  {
  }

  /** Only a live holder younger than 30 minutes keeps the lock. */
  lemma HeldExactly(pid: int, acquiredAt: string, host: string, nowMs: int, acquiredMs: int,
                    isAlive: int -> bool, parseDate: string -> Option<int>)
    requires parseDate(acquiredAt) == Some(acquiredMs)
    ensures HeldByOther(LockData(pid, acquiredAt, host), nowMs, isAlive, parseDate) <==>
      isAlive(pid) && nowMs - acquiredMs < 1_800_000
  {
  }
}
