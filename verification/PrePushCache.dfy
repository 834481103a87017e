/** The cache directory of the pre-push check, used by one process with no other at work. */
module PrePushCache {
  import opened Options
  import opened PrePushLock

  datatype LockFile = LockFile(key: Key, owner: Pid, token: Token)

  datatype Guard = Guard(key: Key, token: Token)

  datatype Acquisition = CacheHit | LockBusy(owner: Pid) | Acquired(guard: Guard) | Unable

  /** A live owner other than a leftover of the past. */
  predicate HeldBy(lock: Option<LockFile>, alive: set<Pid>) {
    lock.Some? && lock.value.owner in alive
  }

  class CacheDirectory {
    var lock: Option<LockFile>
    var receipt: Option<Key>

    constructor ()
      ensures lock == None && receipt == None
    {
      lock, receipt := None, None;
    }

    /** Undisturbed, acquiring never gives up: it reports a receipt for the key, else a live
        owner, else takes the lock, over a stale one if need be. */
    method Acquire(key: Key, pid: Pid, alive: set<Pid>, freshToken: nat -> Token) returns (r: Acquisition)
      modifies `lock
      ensures old(receipt) == Some(key) ==> r == CacheHit && lock == old(lock)
      ensures old(receipt) != Some(key) && HeldBy(old(lock), alive) ==>
                r == LockBusy(old(lock).value.owner) && lock == old(lock)
      ensures old(receipt) != Some(key) && !HeldBy(old(lock), alive) ==>
                && r.Acquired? && r.guard.key == key && r.guard.token in {freshToken(0), freshToken(1)}
                && lock == Some(LockFile(key, pid, r.guard.token))
    {
      if receipt == Some(key) { return CacheHit; }
      var attempt := 0;
      while attempt < 2
        invariant attempt <= 2
        invariant attempt == 0 ==> lock == old(lock)
        invariant attempt >= 1 ==> attempt == 1 && lock == None && !HeldBy(old(lock), alive)
      {
        var token := freshToken(attempt);
        if lock == None {
          lock := Some(LockFile(key, pid, token));
          return Acquired(Guard(key, token));
        }
        if lock.value.owner in alive { return LockBusy(lock.value.owner); }
        lock := None;
        attempt := attempt + 1;
      }
      return Unable;
    }

    method Complete(guard: Guard)
      modifies `receipt
      ensures receipt == Some(guard.key)
    {
      receipt := Some(guard.key);
    }

    /** Only the lock with the guard's own token is removed. */
    method Release(guard: Guard)
      modifies `lock
      ensures lock == if old(lock).Some? && old(lock).value.token == guard.token then None else old(lock)
    {
      if lock.Some? && lock.value.token == guard.token {
        lock := None;
      }
    }

    /** One push: verify under the lock, leave a receipt if the result is 0, release in any case;
        the exit code is that of the verification. */
    method Verify(key: Key, pid: Pid, alive: set<Pid>, freshToken: nat -> Token, result: nat)
      returns (code: nat)
      modifies this
      ensures old(receipt) == Some(key) ==> code == 0 && receipt == old(receipt) && lock == old(lock)
      ensures old(receipt) != Some(key) && HeldBy(old(lock), alive) ==>
                code == 2 && receipt == old(receipt) && lock == old(lock)
      ensures old(receipt) != Some(key) && !HeldBy(old(lock), alive) ==>
                && code == result && lock == None
                && receipt == if result == 0 then Some(key) else old(receipt)
    {
      code := 1;
      var r := Acquire(key, pid, alive, freshToken);
      match r {
        case CacheHit => return 0;
        case LockBusy(_) => return 2;
        case Unable =>
        case Acquired(guard) =>
          if result == 0 { Complete(guard); }
          Release(guard);
          return result;
      }
    }
  }
}
