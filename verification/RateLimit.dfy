/** The login limiter: Redis counters, locks and used-up keys, each with an expiry. An entry past its expiry
    counts as absent, whether or not it was swept. */
module RateLimit {
  import opened Common

  /** Times and durations are in milliseconds. */
  const MINUTE := 60_000
  const IP_LIMIT := 20
  const IP_WINDOW := 5 * MINUTE
  const ACCT_LIMIT := 10
  const ACCT_WINDOW := 30 * MINUTE
  const LOCK_DURATION := 15 * MINUTE

  datatype Counter = Counter(count: int, until: int)

  datatype Decision = Allowed | IpThrottled(retryAfter: int) | AccountLocked

  function Live(counters: map<string, Counter>, key: string, now: int): Option<Counter> {
    if key in counters && now < counters[key].until then Some(counters[key]) else None
  }

  predicate Held(until: map<string, int>, key: string, now: int) {
    key in until && now < until[key]
  }

  /** INCR, then EXPIRE NX: a window starts with its first failure and later ones do not move it. */
  function Bumped(counters: map<string, Counter>, key: string, now: int, window: int): map<string, Counter> {
    match Live(counters, key, now)
    case Some(c) => counters[key := Counter(c.count + 1, c.until)]
    case None => counters[key := Counter(1, now + window)]
  }

  /** One more counted: in the window that is live until it ends, or in one of `length` that starts now. Other keys stay. */
  ghost predicate OneMore(before: map<string, Counter>, after: map<string, Counter>, key: string, now: int, length: int) {
    && key in after && after - {key} == before - {key}
    && after[key] == if key in before && now < before[key].until then Counter(before[key].count + 1, before[key].until)
                     else Counter(1, now + length)
  }

  class Limiter {
    var ips: map<string, Counter>
    var accounts: map<string, Counter>
    var locks: map<string, int>
    var used: map<string, int>

    constructor ()
      ensures ips == map[] && accounts == map[] && locks == map[] && used == map[]
    {
      ips, accounts, locks, used := map[], map[], map[], map[];
    }

    /** Lets an attempt through, or says why not. */
    method Check(now: int, ip: string, account: string) returns (d: Decision)
      ensures d.IpThrottled? <==> ip in ips && now < ips[ip].until && ips[ip].count >= 20
      ensures d.IpThrottled? ==> d.retryAfter == ips[ip].until - now > 0
      ensures d.AccountLocked? <==> !d.IpThrottled? && account in locks && now < locks[account]
    {
      var counter := Live(ips, ip, now);
      if counter.Some? && counter.value.count >= IP_LIMIT {
        return IpThrottled(counter.value.until - now);
      }
      if Held(locks, account, now) {
        return AccountLocked;
      }
      d := Allowed;
    }

    /** Count one failure against the address and the account; lock the account once it has ten. */
    method RecordFailure(now: int, ip: string, account: string)
      modifies this
      ensures OneMore(old(ips), ips, ip, now, 300_000) && OneMore(old(accounts), accounts, account, now, 1_800_000)
      ensures locks == if accounts[account].count >= 10 then old(locks)[account := now + 900_000] else old(locks)
      ensures ips == Bumped(old(ips), ip, now, IP_WINDOW)
      ensures accounts == Bumped(old(accounts), account, now, ACCT_WINDOW)
      ensures used == old(used)
    {
      if ip in ips && now < ips[ip].until {
        ips := ips[ip := Counter(ips[ip].count + 1, ips[ip].until)];
      } else {
        ips := ips[ip := Counter(1, now + IP_WINDOW)];
      }
      if account in accounts && now < accounts[account].until {
        accounts := accounts[account := Counter(accounts[account].count + 1, accounts[account].until)];
      } else {
        accounts := accounts[account := Counter(1, now + ACCT_WINDOW)];
      }
      if accounts[account].count >= ACCT_LIMIT {
        locks := locks[account := now + LOCK_DURATION];
      }
    }

    /** Forget an account's failures; the address keeps its own. */
    method Reset(account: string)
      modifies this
      ensures accounts == old(accounts) - {account} && locks == old(locks) - {account}
      ensures ips == old(ips) && used == old(used)
    {
      accounts := accounts - {account};
      locks := locks - {account};
    }

    /** SET NX with an expiry: true for the first caller while the key lives. */
    method Consume(now: int, key: string, ttl: int) returns (fresh_: bool)
      modifies this
      ensures fresh_ <==> !Held(old(used), key, now)
      ensures used == if fresh_ then old(used)[key := now + ttl] else old(used)
      ensures ips == old(ips) && accounts == old(accounts) && locks == old(locks)
    {
      fresh_ := !Held(used, key, now);
      if fresh_ {
        used := used[key := now + ttl];
      }
    }
  }
}
