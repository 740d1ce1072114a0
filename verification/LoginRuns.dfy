/** What the limiter guarantees over whole runs of logins and second-factor attempts, one request at a time, with
    Redis reachable and the limiter on. */
module LoginRuns {
  import opened Tallies
  import opened RateLimit

  /** What a second factor came to. A code that was used before is turned away and counts for nothing. */
  datatype Factor = Right | Wrong | Replayed

  /** `account` is the limiter's key for the account. */
  datatype Request =
    | Login(now: int, ip: string, account: string, passwordOk: bool, needsCode: bool)
    | Verify(now: int, ip: string, account: string, factor: Factor)

  /** A failed password check: when, and in which window of its address and of its account. */
  datatype Fail = Fail(time: int, ip: string, account: string, ipStart: int, window: nat)

  /** The limiter's keys, and the history of failed password checks. `windows` numbers account windows: a window ends
      when its counter expires or a success resets it. */
  datatype World = World(
    ips: map<string, Counter>,
    accounts: map<string, Counter>,
    locks: map<string, int>,
    clock: int,
    fails: seq<Fail>,
    windows: map<string, nat>,
    nextWindow: nat)

  const START := World(map[], map[], map[], 0, [], map[], 0)

  function Recorded(s: World, now: int, ip: string, account: string, password: bool): World {
    var ips := Bumped(s.ips, ip, now, IP_WINDOW);
    var accounts := Bumped(s.accounts, account, now, ACCT_WINDOW);
    var fresh_ := !(account in s.windows && Live(s.accounts, account, now).Some?);
    var window := if fresh_ then s.nextWindow else s.windows[account];
    World(
      ips,
      accounts,
      if accounts[account].count >= ACCT_LIMIT then s.locks[account := now + LOCK_DURATION] else s.locks,
      now,
      if password then s.fails + [Fail(now, ip, account, ips[ip].until - IP_WINDOW, window)] else s.fails,
      s.windows[account := window],
      if fresh_ then s.nextWindow + 1 else s.nextWindow)
  }

  function Cleared(s: World, now: int, account: string): World {
    s.(accounts := s.accounts - {account}, locks := s.locks - {account}, windows := s.windows - {account}, clock := now)
  }

  predicate Throttled(s: World, now: int, ip: string) {
    var c := Live(s.ips, ip, now);
    c.Some? && c.value.count >= IP_LIMIT
  }

  /** One request. A login is checked first, costs one password check, and counts a failure or goes on; a success
      with no second factor outstanding clears the account. A wrong code counts as a failure without any check. */
  function Served(s: World, r: Request): World {
    match r
    case Login(now, ip, account, passwordOk, needsCode) =>
      if Throttled(s, now, ip) || Held(s.locks, account, now) then s.(clock := now)
      else if !passwordOk then Recorded(s, now, ip, account, true)
      else if needsCode then s.(clock := now)
      else Cleared(s, now, account)
    case Verify(now, ip, account, factor) =>
      match factor
      case Right => Cleared(s, now, account)
      case Wrong => Recorded(s, now, ip, account, false)
      case Replayed => s.(clock := now)
  }

  predicate Ordered(rs: seq<Request>) {
    (forall i :: 0 <= i < |rs| ==> 0 <= rs[i].now) && (forall i, j :: 0 <= i < j < |rs| ==> rs[i].now <= rs[j].now)
  }

  function Run(rs: seq<Request>): World {
    if |rs| == 0 then START else Served(Run(rs[..|rs| - 1]), rs[|rs| - 1])
  }

  // --- What a request does, in the limiter's terms ---

  /** The address made twenty failures in five minutes that have not ended, or the account is locked. */
  ghost predicate Barred(ips: map<string, Counter>, locks: map<string, int>, r: Request) {
    || (r.ip in ips && r.now < ips[r.ip].until && ips[r.ip].count >= 20)
    || (r.account in locks && r.now < locks[r.account])
  }

  /** A failure: one more for the address and the account, and a lock of a quarter hour from the tenth on. */
  ghost predicate Missed(s: World, t: World, r: Request) {
    && OneMore(s.ips, t.ips, r.ip, r.now, 300_000) && OneMore(s.accounts, t.accounts, r.account, r.now, 1_800_000)
    && t.locks == if t.accounts[r.account].count >= 10 then s.locks[r.account := r.now + 900_000] else s.locks
  }

  /** A success: the account's count and lock are forgotten, the address keeps its own. */
  ghost predicate Forgotten(s: World, t: World, r: Request) {
    t.accounts == s.accounts - {r.account} && t.locks == s.locks - {r.account} && t.ips == s.ips
  }

  ghost predicate Untouched(s: World, t: World) {
    t.ips == s.ips && t.accounts == s.accounts && t.locks == s.locks
  }

  /** What each kind of request does. Only a login that gets past the limiter has its password checked; a failed check is recorded. */
  ghost predicate Serves(s: World, t: World, r: Request) {
    match r
    case Login(now, ip, account, passwordOk, needsCode) =>
      if Barred(s.ips, s.locks, r) then Untouched(s, t) && t.fails == s.fails
      else if !passwordOk then
        Missed(s, t, r) && |t.fails| == |s.fails| + 1 && t.fails[..|s.fails|] == s.fails
        && t.fails[|s.fails|].time == now && t.fails[|s.fails|].ip == ip && t.fails[|s.fails|].account == account
      else t.fails == s.fails && if needsCode then Untouched(s, t) else Forgotten(s, t, r)
    case Verify(now, ip, account, factor) =>
      t.fails == s.fails && match factor
        case Right => Forgotten(s, t, r)
        case Wrong => Missed(s, t, r)
        case Replayed => Untouched(s, t)
  }

  lemma BumpedOneMore(before: map<string, Counter>, key: string, now: int, length: int)
    ensures OneMore(before, Bumped(before, key, now, length), key, now, length)
  {}

  lemma RecordedMisses(s: World, r: Request, password: bool)
    ensures Missed(s, Recorded(s, r.now, r.ip, r.account, password), r)
  {
    hide Bumped, OneMore;
    BumpedOneMore(s.ips, r.ip, r.now, 300_000);
    BumpedOneMore(s.accounts, r.account, r.now, 1_800_000);
  }

  lemma RecordedFails(s: World, r: Request)
    ensures var t := Recorded(s, r.now, r.ip, r.account, true);
      && |t.fails| == |s.fails| + 1 && t.fails[..|s.fails|] == s.fails
      && t.fails[|s.fails|].time == r.now && t.fails[|s.fails|].ip == r.ip && t.fails[|s.fails|].account == r.account
    ensures Recorded(s, r.now, r.ip, r.account, false).fails == s.fails
  {
    hide Bumped;
  }

  lemma ServedServes(s: World, r: Request)
    ensures Serves(s, Served(s, r), r)
  {
    hide Missed, Recorded;
    RecordedFails(s, r);
    RecordedMisses(s, r, true);
    RecordedMisses(s, r, false);
  }

  /** The login handler, on the limiter object. */
  method ServeLogin(limiter: Limiter, r: Request, ghost s: World) returns (ghost t: World)
    requires limiter.ips == s.ips && limiter.accounts == s.accounts && limiter.locks == s.locks && r.Login?
    modifies limiter
    ensures t == Served(s, r)
    ensures limiter.ips == t.ips && limiter.accounts == t.accounts && limiter.locks == t.locks
  {
    hide Bumped;
    t := Served(s, r);
    var d := limiter.Check(r.now, r.ip, r.account);
    if d.Allowed? {
      if !r.passwordOk {
        limiter.RecordFailure(r.now, r.ip, r.account);
      } else if !r.needsCode {
        limiter.Reset(r.account);
      }
    }
  }

  /** The second-factor handler. */
  method ServeVerify(limiter: Limiter, r: Request, ghost s: World) returns (ghost t: World)
    requires limiter.ips == s.ips && limiter.accounts == s.accounts && limiter.locks == s.locks && r.Verify?
    modifies limiter
    ensures t == Served(s, r)
    ensures limiter.ips == t.ips && limiter.accounts == t.accounts && limiter.locks == t.locks
  {
    hide Bumped;
    t := Served(s, r);
    if r.factor.Right? {
      limiter.Reset(r.account);
    } else if r.factor.Wrong? {
      limiter.RecordFailure(r.now, r.ip, r.account);
    }
  }

  method Serve(limiter: Limiter, r: Request, ghost s: World) returns (ghost t: World)
    requires limiter.ips == s.ips && limiter.accounts == s.accounts && limiter.locks == s.locks
    modifies limiter
    ensures t == Served(s, r) && Serves(s, t, r)
    ensures limiter.ips == t.ips && limiter.accounts == t.accounts && limiter.locks == t.locks
  {
    hide Served, Serves;
    ServedServes(s, r);
    if r.Login? {
      t := ServeLogin(limiter, r, s);
    } else {
      t := ServeVerify(limiter, r, s);
    }
  }

  // --- Per address ---

  function InIpWindow(ip: string, start: int): Fail -> nat {
    (f: Fail) => One(f.ip == ip && f.ipStart == start)
  }

  function FailsIn(s: World, ip: string, start: int): nat {
    Tally(s.fails, InIpWindow(ip, start))
  }

  /** The latest window of an address starts here. */
  function LatestStart(s: World, ip: string): int
    requires ip in s.ips
  {
    s.ips[ip].until - IP_WINDOW
  }

  /** Every failure lies inside its window, and windows of an address follow one another without overlap. */
  ghost predicate IpWindows(s: World) {
    && (forall ip :: ip in s.ips ==> LatestStart(s, ip) <= s.clock)
    && (forall f :: f in s.fails ==> f.ipStart <= f.time < f.ipStart + IP_WINDOW)
    && (forall f :: f in s.fails ==> f.ip in s.ips && (f.ipStart == LatestStart(s, f.ip) || f.ipStart + IP_WINDOW <= LatestStart(s, f.ip)))
    && (forall f, g :: f in s.fails && g in s.fails && f.ip == g.ip && f.ipStart < g.ipStart ==> f.ipStart + IP_WINDOW <= g.ipStart)
  }

  /** No window of an address holds more than 20 failed checks. */
  ghost predicate IpCounts(s: World) {
    && (forall ip, start :: FailsIn(s, ip, start) <= IP_LIMIT)
    && (forall ip :: ip in s.ips ==> FailsIn(s, ip, LatestStart(s, ip)) <= s.ips[ip].count)
  }

  function LaterInIpWindow(ip: string, start: int): Fail -> nat {
    (f: Fail) => One(f.ip == ip && f.ipStart == start && f.time > start)
  }

  function LaterFails(s: World, ip: string, start: int): nat {
    Tally(s.fails, LaterInIpWindow(ip, start))
  }

  /** The failure that starts a window uses up one of its twenty, so no more than 19 come after that moment. */
  ghost predicate LaterCounts(s: World) {
    && (forall ip, start :: LaterFails(s, ip, start) < IP_LIMIT)
    && (forall ip :: ip in s.ips ==> LaterFails(s, ip, LatestStart(s, ip)) < s.ips[ip].count)
  }

  lemma {:induction false} NoneTallied(fails: seq<Fail>, weight: Fail -> nat)
    requires forall f :: f in fails ==> weight(f) == 0
    ensures Tally(fails, weight) == 0
  {
    forall i | 0 <= i < |fails| ensures weight(fails[i]) == 0 {
      assert fails[i] in fails;
    }
    TallyZero(fails, weight);
  }

  lemma RecordedIpWindows(s: World, now: int, ip: string, account: string, password: bool)
    requires IpWindows(s) && s.clock <= now
    ensures IpWindows(Recorded(s, now, ip, account, password))
  {
    var t := Recorded(s, now, ip, account, password);
    var start := LatestStart(t, ip);
    if Live(s.ips, ip, now).Some? {
      assert start == LatestStart(s, ip);
    } else {
      assert start == now;
      assert ip in s.ips ==> LatestStart(s, ip) + IP_WINDOW <= start;
    }
    forall f | f in s.fails && f.ip == ip ensures f.ipStart == start || f.ipStart + IP_WINDOW <= start {}
  }

  lemma IpCountGrows(s: World, t: World, fail: Fail, password: bool, ip: string, start: int)
    requires t.fails == if password then s.fails + [fail] else s.fails
    ensures FailsIn(t, ip, start) == FailsIn(s, ip, start) + One(password && ip == fail.ip && start == fail.ipStart)
  {
    if password {
      TallySnoc(s.fails, fail, InIpWindow(ip, start));
    }
  }

  lemma IpCountsGrow(s: World, t: World, fail: Fail, password: bool)
    requires IpCounts(s) && fail.ip in t.ips && fail.ipStart == LatestStart(t, fail.ip)
    requires t.fails == if password then s.fails + [fail] else s.fails
    requires password ==> FailsIn(s, fail.ip, fail.ipStart) < IP_LIMIT
    requires t.ips == s.ips[fail.ip := t.ips[fail.ip]]
    requires FailsIn(s, fail.ip, fail.ipStart) + One(password) <= t.ips[fail.ip].count
    ensures IpCounts(t)
  {
    forall q, b ensures FailsIn(t, q, b) <= IP_LIMIT {
      IpCountGrows(s, t, fail, password, q, b);
    }
    forall q | q in t.ips ensures FailsIn(t, q, LatestStart(t, q)) <= t.ips[q].count {
      IpCountGrows(s, t, fail, password, q, LatestStart(t, q));
      if q != fail.ip {
        assert t.ips[q] == s.ips[q];
      }
    }
  }

  lemma RecordedIpCounts(s: World, now: int, ip: string, account: string, password: bool)
    requires IpWindows(s) && IpCounts(s) && s.clock <= now && (password ==> !Throttled(s, now, ip))
    ensures IpCounts(Recorded(s, now, ip, account, password))
  {
    var t := Recorded(s, now, ip, account, password);
    var start := LatestStart(t, ip);
    if Live(s.ips, ip, now).None? {
      forall f | f in s.fails ensures InIpWindow(ip, start)(f) == 0 {}
      NoneTallied(s.fails, InIpWindow(ip, start));
    }
    assert FailsIn(s, ip, start) < IP_LIMIT || !password;
    IpCountsGrow(s, t, Fail(now, ip, account, start, t.windows[account]), password);
  }

  lemma LaterGrows(s: World, t: World, fail: Fail, password: bool, ip: string, start: int)
    requires t.fails == if password then s.fails + [fail] else s.fails
    ensures LaterFails(t, ip, start)
         == LaterFails(s, ip, start) + One(password && ip == fail.ip && start == fail.ipStart && fail.time > start)
  {
    if password {
      TallySnoc(s.fails, fail, LaterInIpWindow(ip, start));
    }
  }

  lemma LaterCountsGrow(s: World, t: World, fail: Fail, password: bool)
    requires LaterCounts(s) && fail.ip in t.ips && fail.ipStart == LatestStart(t, fail.ip)
    requires t.fails == if password then s.fails + [fail] else s.fails
    requires t.ips == s.ips[fail.ip := t.ips[fail.ip]]
    requires password && fail.time > fail.ipStart ==> LaterFails(s, fail.ip, fail.ipStart) + 1 < IP_LIMIT
    requires LaterFails(s, fail.ip, fail.ipStart) + One(password && fail.time > fail.ipStart) < t.ips[fail.ip].count
    ensures LaterCounts(t)
  {
    forall q, b ensures LaterFails(t, q, b) < IP_LIMIT {
      LaterGrows(s, t, fail, password, q, b);
    }
    forall q | q in t.ips ensures LaterFails(t, q, LatestStart(t, q)) < t.ips[q].count {
      LaterGrows(s, t, fail, password, q, LatestStart(t, q));
      if q != fail.ip {
        assert t.ips[q] == s.ips[q];
      }
    }
  }

  lemma RecordedLaterCounts(s: World, now: int, ip: string, account: string, password: bool)
    requires IpWindows(s) && LaterCounts(s) && s.clock <= now && (password ==> !Throttled(s, now, ip))
    ensures LaterCounts(Recorded(s, now, ip, account, password))
  {
    var t := Recorded(s, now, ip, account, password);
    var start := LatestStart(t, ip);
    if Live(s.ips, ip, now).None? {
      forall f | f in s.fails ensures LaterInIpWindow(ip, start)(f) == 0 {}
      NoneTallied(s.fails, LaterInIpWindow(ip, start));
    }
    LaterCountsGrow(s, t, Fail(now, ip, account, start, t.windows[account]), password);
  }

  // --- Per account ---

  function InWindow(window: nat): Fail -> nat {
    (f: Fail) => One(f.window == window)
  }

  function FailsOf(s: World, window: nat): nat {
    Tally(s.fails, InWindow(window))
  }

  /** How far an account's current window has got: fewer than ten counted; or ten failed checks at most and a lock
      reaching past its first quarter hour; or eleven and a lock reaching past its end. */
  ghost predicate Progressed(s: World, account: string)
    requires account in s.accounts && account in s.windows
  {
    var c, n := s.accounts[account], FailsOf(s, s.windows[account]);
    var start := c.until - ACCT_WINDOW;
    && start <= s.clock
    && (c.count < ACCT_LIMIT ==> n <= c.count)
    && (c.count >= ACCT_LIMIT ==> account in s.locks)
    && (c.count >= ACCT_LIMIT ==> n <= ACCT_LIMIT + 1 && s.locks[account] >= start + LOCK_DURATION)
    && (c.count >= ACCT_LIMIT && n > ACCT_LIMIT ==> s.locks[account] >= c.until)
  }

  ghost predicate AccountsSound(s: World) {
    && (forall f :: f in s.fails ==> f.window < s.nextWindow)
    && (forall window: nat :: FailsOf(s, window) <= ACCT_LIMIT + 1)
    && s.accounts.Keys == s.windows.Keys
    && (forall account :: account in s.windows ==> s.windows[account] < s.nextWindow && Progressed(s, account))
    && (forall a, b :: a in s.windows && b in s.windows && s.windows[a] == s.windows[b] ==> a == b)
    && (forall account :: account in s.locks ==> s.locks[account] <= s.clock + LOCK_DURATION)
  }

  lemma RecordedProgress(s: World, now: int, ip: string, account: string, password: bool)
    requires AccountsSound(s) && s.clock <= now && (password ==> !Held(s.locks, account, now))
    ensures var t := Recorded(s, now, ip, account, password); Progressed(t, account)
    ensures var t := Recorded(s, now, ip, account, password); FailsOf(t, t.windows[account]) <= ACCT_LIMIT + 1
  {
    var t := Recorded(s, now, ip, account, password);
    var window := t.windows[account];
    if Live(s.accounts, account, now).None? {
      NoneTallied(s.fails, InWindow(window));
    }
    if password {
      TallySnoc(s.fails, t.fails[|s.fails|], InWindow(window));
    }
  }

  lemma WindowsGrow(s: World, t: World, fail: Fail, password: bool)
    requires t.fails == if password then s.fails + [fail] else s.fails
    ensures forall window: nat :: FailsOf(t, window) == FailsOf(s, window) + One(password && window == fail.window)
  {
    forall window: nat ensures FailsOf(t, window) == FailsOf(s, window) + One(password && window == fail.window) {
      if password {
        TallySnoc(s.fails, fail, InWindow(window));
      }
    }
  }

  /** Windows keep distinct numbers. */
  lemma WindowNumbers(s: World, t: World, account: string)
    requires forall a :: a in s.windows ==> s.windows[a] < s.nextWindow
    requires forall a, b :: a in s.windows && b in s.windows && s.windows[a] == s.windows[b] ==> a == b
    requires account in t.windows && t.windows == s.windows[account := t.windows[account]]
    requires t.windows[account] == s.nextWindow || (account in s.windows && t.windows[account] == s.windows[account])
    ensures forall a, b :: a in t.windows && b in t.windows && t.windows[a] == t.windows[b] ==> a == b
  {}

  lemma OtherProgress(s: World, t: World, other: string)
    requires other in s.accounts && other in s.windows && Progressed(s, other) && s.clock <= t.clock
    requires other in t.accounts && t.accounts[other] == s.accounts[other]
    requires other in t.windows && t.windows[other] == s.windows[other] && FailsOf(t, t.windows[other]) == FailsOf(s, s.windows[other])
    requires other in s.locks ==> other in t.locks && t.locks[other] == s.locks[other]
    ensures Progressed(t, other)
  {}

  /** Recording a failure leaves the other accounts where they were. */
  lemma RecordedOthers(s: World, now: int, ip: string, account: string, password: bool)
    requires AccountsSound(s) && s.clock <= now && Progressed(Recorded(s, now, ip, account, password), account)
    ensures var t := Recorded(s, now, ip, account, password);
      forall a :: a in t.windows ==> t.windows[a] < t.nextWindow && a in t.accounts && Progressed(t, a)
  {
    hide Tally;
    var t := Recorded(s, now, ip, account, password);
    WindowsGrow(s, t, Fail(now, ip, account, t.ips[ip].until - IP_WINDOW, t.windows[account]), password);
    forall a | a in t.windows ensures t.windows[a] < t.nextWindow && a in t.accounts && Progressed(t, a) {
      if a != account {
        OtherProgress(s, t, a);
      }
    }
  }

  lemma RecordedAccounts(s: World, now: int, ip: string, account: string, password: bool)
    requires AccountsSound(s) && s.clock <= now && (password ==> !Held(s.locks, account, now))
    ensures AccountsSound(Recorded(s, now, ip, account, password))
  {
    hide Progressed, Tally;
    var t := Recorded(s, now, ip, account, password);
    RecordedProgress(s, now, ip, account, password);
    RecordedOthers(s, now, ip, account, password);
    WindowsGrow(s, t, Fail(now, ip, account, t.ips[ip].until - IP_WINDOW, t.windows[account]), password);
    WindowNumbers(s, t, account);
  }

  // --- Runs ---

  ghost predicate Sound(s: World) {
    IpWindows(s) && IpCounts(s) && LaterCounts(s) && AccountsSound(s)
  }

  lemma RecordedSound(s: World, now: int, ip: string, account: string, password: bool)
    requires Sound(s) && s.clock <= now
    requires password ==> !Throttled(s, now, ip) && !Held(s.locks, account, now)
    ensures Sound(Recorded(s, now, ip, account, password))
  {
    RecordedIpWindows(s, now, ip, account, password);
    RecordedIpCounts(s, now, ip, account, password);
    RecordedLaterCounts(s, now, ip, account, password);
    RecordedAccounts(s, now, ip, account, password);
  }

  /** What is kept about addresses needs the failures and the counters of addresses, and no more. */
  lemma SameAddresses(s: World, t: World)
    requires IpWindows(s) && IpCounts(s) && LaterCounts(s)
    requires t.ips == s.ips && t.fails == s.fails && s.clock <= t.clock
    ensures IpWindows(t) && IpCounts(t) && LaterCounts(t)
  {
    hide Tally;
    assert forall ip, start :: FailsIn(t, ip, start) == FailsIn(s, ip, start) && LaterFails(t, ip, start) == LaterFails(s, ip, start);
  }

  /** Nor do the accounts mind the clock going on, or one of them being forgotten. */
  lemma FewerAccounts(s: World, t: World)
    requires AccountsSound(s) && t.fails == s.fails && t.nextWindow == s.nextWindow && s.clock <= t.clock
    requires t.accounts.Keys == t.windows.Keys
    requires forall a :: a in t.windows ==> a in s.windows && t.windows[a] == s.windows[a] && t.accounts[a] == s.accounts[a]
    requires forall a :: a in t.windows && a in s.locks ==> a in t.locks
    requires forall a :: a in t.locks ==> a in s.locks && t.locks[a] == s.locks[a]
    ensures AccountsSound(t)
  {
    hide Tally;
    assert forall window :: FailsOf(t, window) == FailsOf(s, window);
    forall a | a in t.windows ensures Progressed(t, a) {
      OtherProgress(s, t, a);
    }
  }

  lemma WaitedSound(s: World, now: int)
    requires Sound(s) && s.clock <= now
    ensures Sound(s.(clock := now))
  {
    var t := s.(clock := now);
    SameAddresses(s, t);
    FewerAccounts(s, t);
  }

  lemma ClearedSound(s: World, now: int, account: string)
    requires Sound(s) && s.clock <= now
    ensures Sound(Cleared(s, now, account))
  {
    var t := Cleared(s, now, account);
    SameAddresses(s, t);
    FewerAccounts(s, t);
  }

  lemma ServedSound(s: World, r: Request)
    requires Sound(s) && s.clock <= r.now
    ensures Sound(Served(s, r)) && Served(s, r).clock == r.now
    ensures Serves(s, Served(s, r), r)
  {
    hide Serves;
    ServedServes(s, r);
    match r
    case Login(now, ip, account, passwordOk, needsCode) =>
      if Throttled(s, now, ip) || Held(s.locks, account, now) || (passwordOk && needsCode) {
        WaitedSound(s, now);
      } else if !passwordOk {
        RecordedSound(s, now, ip, account, true);
      } else {
        ClearedSound(s, now, account);
      }
    case Verify(now, ip, account, factor) =>
      if factor.Right? {
        ClearedSound(s, now, account);
      } else if factor.Wrong? {
        RecordedSound(s, now, ip, account, false);
      } else {
        WaitedSound(s, now);
      }
  }

  lemma {:induction false} RunSound(rs: seq<Request>)
    requires Ordered(rs)
    ensures Sound(Run(rs))
    ensures Run(rs).clock == if |rs| == 0 then 0 else rs[|rs| - 1].now
  {
    if |rs| == 0 {
      assert forall ip, start :: FailsIn(START, ip, start) == 0 && LaterFails(START, ip, start) == 0;
      assert forall window :: FailsOf(START, window) == 0;
    } else {
      RunSound(rs[..|rs| - 1]);
      ServedSound(Run(rs[..|rs| - 1]), rs[|rs| - 1]);
    }
  }

  // --- The bounds ---

  function Within(ip: string, from: int): Fail -> nat {
    (f: Fail) => One(f.ip == ip && from <= f.time < from + 300_000)
  }

  lemma NotThree(s: World, ip: string, from: int, f: Fail, g: Fail, h: Fail)
    requires IpWindows(s) && f in s.fails && g in s.fails && h in s.fails
    requires Within(ip, from)(f) == 1 && Within(ip, from)(g) == 1 && Within(ip, from)(h) == 1
    ensures f.ipStart == g.ipStart || g.ipStart == h.ipStart || f.ipStart == h.ipStart
  {}

  /** Failures of one address within any five minutes fall into at most two of its windows. */
  lemma TwoWindows(s: World, ip: string, from: int) returns (first: int, second: int)
    requires IpWindows(s)
    ensures forall f :: f in s.fails && Within(ip, from)(f) == 1 ==> f.ipStart == first || f.ipStart == second
  {
    first, second := 0, 0;
    if f :| f in s.fails && Within(ip, from)(f) == 1 {
      first, second := f.ipStart, f.ipStart;
      if g :| g in s.fails && Within(ip, from)(g) == 1 && g.ipStart != first {
        second := g.ipStart;
        forall h | h in s.fails && Within(ip, from)(h) == 1 ensures h.ipStart == first || h.ipStart == second {
          NotThree(s, ip, from, f, g, h);
        }
      }
    }
  }

  /** Two windows cannot both show their first moment within five minutes. */
  lemma OneLate(s: World, ip: string, from: int, first: int, second: int)
    requires IpWindows(s) && first != second
    requires exists f :: f in s.fails && Within(ip, from)(f) == 1 && f.ipStart == first
    requires exists f :: f in s.fails && Within(ip, from)(f) == 1 && f.ipStart == second
    ensures first < from || second < from
  {}

  lemma LateOnly(s: World, ip: string, from: int, first: int, second: int)
    requires IpWindows(s) && first < from
    requires forall f :: f in s.fails && Within(ip, from)(f) == 1 ==> f.ipStart == first || f.ipStart == second
    ensures Tally(s.fails, Within(ip, from)) <= LaterFails(s, ip, first) + FailsIn(s, ip, second)
  {
    forall i | 0 <= i < |s.fails|
      ensures Within(ip, from)(s.fails[i]) <= LaterInIpWindow(ip, first)(s.fails[i]) + InIpWindow(ip, second)(s.fails[i])
    {
      assert s.fails[i] in s.fails;
    }
    TallySplit(s.fails, Within(ip, from), LaterInIpWindow(ip, first), InIpWindow(ip, second));
  }

  lemma OneWindowOnly(s: World, ip: string, from: int, only: int)
    requires forall f :: f in s.fails && Within(ip, from)(f) == 1 ==> f.ipStart == only
    ensures Tally(s.fails, Within(ip, from)) <= FailsIn(s, ip, only)
  {
    var none := (f: Fail) => 0 as nat;
    forall i | 0 <= i < |s.fails| ensures Within(ip, from)(s.fails[i]) <= InIpWindow(ip, only)(s.fails[i]) + none(s.fails[i]) {
      assert s.fails[i] in s.fails;
    }
    TallySplit(s.fails, Within(ip, from), InIpWindow(ip, only), none);
    TallyZero(s.fails, none);
  }

  /** Any half-open five minutes hold at most 39 failed password checks from one address: they meet two windows at most, and the
      earlier of the two started before those five minutes. */
  lemma ThirtyNinePerAddress(rs: seq<Request>, ip: string, from: int)
    requires Ordered(rs)
    ensures Tally(Run(rs).fails, Within(ip, from)) <= 39
  {
    RunSound(rs);
    var s := Run(rs);
    var first, second := TwoWindows(s, ip, from);
    if !(exists f :: f in s.fails && Within(ip, from)(f) == 1 && f.ipStart == first) {
      OneWindowOnly(s, ip, from, second);
      assert FailsIn(s, ip, second) <= IP_LIMIT;
    } else if !(exists f :: f in s.fails && Within(ip, from)(f) == 1 && f.ipStart == second) || first == second {
      OneWindowOnly(s, ip, from, first);
      assert FailsIn(s, ip, first) <= IP_LIMIT;
    } else {
      OneLate(s, ip, from, first, second);
      if first < from {
        LateOnly(s, ip, from, first, second);
        assert LaterFails(s, ip, first) < IP_LIMIT && FailsIn(s, ip, second) <= IP_LIMIT;
      } else {
        LateOnly(s, ip, from, second, first);
        assert LaterFails(s, ip, second) < IP_LIMIT && FailsIn(s, ip, first) <= IP_LIMIT;
      }
    }
  }

  /** One thirty-minute window of an account holds at most 11 failed password checks between resets: the lock taken
      at the tenth lets one more through before the window ends, and that one locks past its end. */
  lemma ElevenPerAccountWindow(rs: seq<Request>, window: nat)
    requires Ordered(rs)
    ensures FailsOf(Run(rs), window) <= 11
  {
    RunSound(rs);
  }

  // --- The bounds are reached ---

  /** A failed password check. */
  function Miss(now: int, ip: string, account: string): Request {
    Login(now, ip, account, false, false)
  }

  function CountAt(counters: map<string, Counter>, key: string, now: int): int {
    match Live(counters, key, now)
    case Some(c) => c.count
    case None => 0
  }

  /** `n` more counted under `key` at `now`; the window is the one that was live, or starts now. */
  ghost predicate CountedMore(before: map<string, Counter>, after: map<string, Counter>, key: string, now: int, window: int, n: nat) {
    && (forall other :: other != key ==> (other in after <==> other in before))
    && (forall other :: other != key && other in before ==> after[other] == before[other])
    && (n == 0 ==> after == before)
    && (n > 0 ==> key in after && now < after[key].until && after[key].count == CountAt(before, key, now) + n)
    && (n > 0 ==> after[key].until == if Live(before, key, now).Some? then before[key].until else now + window)
  }

  lemma BumpCounts(before: map<string, Counter>, key: string, now: int, window: int)
    requires window > 0
    ensures CountedMore(before, Bumped(before, key, now, window), key, now, window, 1)
  {}

  lemma MoreCounts(a: map<string, Counter>, b: map<string, Counter>, key: string, now: int, window: int, n: nat)
    requires CountedMore(a, b, key, now, window, n) && window > 0
    ensures CountedMore(a, Bumped(b, key, now, window), key, now, window, n + 1)
    ensures CountAt(b, key, now) == CountAt(a, key, now) + n
  {}

  /** `n` failed checks at one moment, all in the account's window as it is afterwards. */
  ghost predicate FailedMore(s: World, t: World, now: int, ip: string, account: string, n: nat) {
    && |t.fails| == |s.fails| + n && t.fails[..|s.fails|] == s.fails
    && (n > 0 ==> account in t.windows)
    && (forall i :: |s.fails| <= i < |t.fails| ==> t.fails[i].time == now && t.fails[i].ip == ip && t.fails[i].window == t.windows[account])
    && (account in s.windows && Live(s.accounts, account, now).Some? ==> account in t.windows && t.windows[account] == s.windows[account])
  }

  /** Locks are as before, but for one taken now when the account has reached its limit. */
  ghost predicate LockedMore(s: World, t: World, now: int, account: string, n: nat) {
    t.locks == if n > 0 && CountAt(t.accounts, account, now) >= ACCT_LIMIT then s.locks[account := now + LOCK_DURATION] else s.locks
  }

  /** What `n` misses of one account from one address at one moment leave behind. */
  ghost predicate AfterMisses(s: World, t: World, now: int, ip: string, account: string, n: nat) {
    && CountedMore(s.ips, t.ips, ip, now, IP_WINDOW, n) && CountedMore(s.accounts, t.accounts, account, now, ACCT_WINDOW, n)
    && FailedMore(s, t, now, ip, account, n) && LockedMore(s, t, now, account, n) && (n == 0 ==> t == s)
  }

  lemma MissServed(s: World, now: int, ip: string, account: string)
    requires CountAt(s.ips, ip, now) < IP_LIMIT && !Held(s.locks, account, now)
    ensures Served(s, Miss(now, ip, account)) == Recorded(s, now, ip, account, true)
  {}

  lemma FailedOnce(s: World, t: World, u: World, now: int, ip: string, account: string, n: nat)
    requires FailedMore(s, t, now, ip, account, n) && u == Recorded(t, now, ip, account, true)
    requires n > 0 ==> Live(t.accounts, account, now).Some?
    requires n == 0 ==> t == s
    requires u.fails[..|s.fails|] == s.fails
    ensures FailedMore(s, u, now, ip, account, n + 1)
  {}

  lemma RecordedMore(s: World, t: World, now: int, ip: string, account: string, n: nat)
    requires AfterMisses(s, t, now, ip, account, n) && (n > 0 ==> CountAt(t.accounts, account, now) < ACCT_LIMIT)
    ensures AfterMisses(s, Recorded(t, now, ip, account, true), now, ip, account, n + 1)
  {
    MoreCounts(s.ips, t.ips, ip, now, IP_WINDOW, n);
    MoreCounts(s.accounts, t.accounts, account, now, ACCT_WINDOW, n);
    var u := Recorded(t, now, ip, account, true);
    assert u.fails[..|s.fails|] == u.fails[..|t.fails|][..|s.fails|];
    FailedOnce(s, t, u, now, ip, account, n);
  }

  lemma NoMisses(s: World, now: int, ip: string, account: string)
    ensures AfterMisses(s, s, now, ip, account, 0)
  {}

  lemma NextMiss(s: World, t: World, now: int, ip: string, account: string, n: nat)
    requires AfterMisses(s, t, now, ip, account, n) && !Held(s.locks, account, now)
    requires CountAt(s.ips, ip, now) + n < IP_LIMIT && CountAt(s.accounts, account, now) + n < ACCT_LIMIT
    ensures AfterMisses(s, Served(t, Miss(now, ip, account)), now, ip, account, n + 1)
  {
    hide Recorded;
    MoreCounts(s.ips, t.ips, ip, now, IP_WINDOW, n);
    MoreCounts(s.accounts, t.accounts, account, now, ACCT_WINDOW, n);
    MissServed(t, now, ip, account);
    RecordedMore(s, t, now, ip, account, n);
  }

  lemma RunSnoc(rs: seq<Request>, r: Request)
    ensures Run(rs + [r]) == Served(Run(rs), r)
    ensures Ordered(rs) && 0 <= r.now && (|rs| > 0 ==> rs[|rs| - 1].now <= r.now) ==> Ordered(rs + [r])
  {
    assert (rs + [r])[..|rs|] == rs;
  }

  /** As long as the address stays within 20 and the account within 10, misses go through. */
  lemma {:induction false} Misses(rs: seq<Request>, now: int, ip: string, account: string, n: nat) returns (longer: seq<Request>)
    requires Ordered(rs) && now >= 0 && (|rs| > 0 ==> rs[|rs| - 1].now <= now)
    requires CountAt(Run(rs).ips, ip, now) + n <= IP_LIMIT && CountAt(Run(rs).accounts, account, now) + n <= ACCT_LIMIT
    requires !Held(Run(rs).locks, account, now)
    ensures Ordered(longer) && (n > 0 ==> |longer| > 0 && longer[|longer| - 1].now == now)
    ensures AfterMisses(Run(rs), Run(longer), now, ip, account, n) && (n == 0 ==> longer == rs)
  {
    hide Run, Served, AfterMisses;
    if n == 0 {
      longer := rs;
      NoMisses(Run(rs), now, ip, account);
    } else {
      var before := Misses(rs, now, ip, account, n - 1);
      longer := before + [Miss(now, ip, account)];
      RunSnoc(before, Miss(now, ip, account));
      NextMiss(Run(rs), Run(before), now, ip, account, n - 1);
    }
  }

  lemma {:induction false} TallyTail(fails: seq<Fail>, k: nat, weight: Fail -> nat)
    requires k <= |fails| && forall i :: k <= i < |fails| ==> weight(fails[i]) == 1
    ensures Tally(fails, weight) == Tally(fails[..k], weight) + |fails| - k
  {
    if k == |fails| {
      assert fails[..k] == fails;
    } else {
      var n := |fails| - 1;
      TallyTail(fails[..n], k, weight);
      assert fails[..n][..k] == fails[..k];
    }
  }

  const ADDRESS := "address"

  /** Failures from `k` on are of the address, at time `at`. */
  ghost predicate FailsFrom(s: World, k: nat, at: int) {
    forall i :: k <= i < |s.fails| ==> s.fails[i].time == at && s.fails[i].ip == ADDRESS
  }

  lemma FailsAppend(s: World, t: World, at: int, account: string, k: nat, n: nat)
    requires FailedMore(s, t, at, ADDRESS, account, n) && FailsFrom(s, k, at) && k <= |s.fails|
    ensures FailsFrom(t, k, at) && t.fails[..k] == s.fails[..k]
  {
    forall i | k <= i < |t.fails| ensures t.fails[i].time == at && t.fails[i].ip == ADDRESS {
      if i < |s.fails| {
        assert t.fails[i] == t.fails[..|s.fails|][i];
      }
    }
    assert t.fails[..|s.fails|][..k] == t.fails[..k];
  }

  /** One miss starts a window. */
  lemma FirstMiss() returns (rs: seq<Request>)
    ensures Ordered(rs) && |rs| > 0 && rs[|rs| - 1].now == 0
    ensures var s := Run(rs);
      && |s.fails| == 1 && s.fails[0].time == 0 && s.locks == map[]
      && s.ips == map[ADDRESS := Counter(1, IP_WINDOW)] && s.accounts == map["a" := Counter(1, ACCT_WINDOW)]
  {
    rs := Misses([], 0, ADDRESS, "a", 1);
  }

  /** Nine more come from the same account in its last millisecond. */
  lemma TenMisses() returns (rs: seq<Request>)
    ensures Ordered(rs) && |rs| > 0 && rs[|rs| - 1].now == IP_WINDOW - 1
    ensures var s := Run(rs);
      && |s.fails| == 10 && s.fails[0].time == 0 && FailsFrom(s, 1, IP_WINDOW - 1)
      && s.ips == map[ADDRESS := Counter(10, IP_WINDOW)] && s.accounts.Keys == {"a"} && s.locks.Keys <= {"a"}
  {
    hide Run;
    rs := FirstMiss();
    var s := Run(rs);
    rs := Misses(rs, IP_WINDOW - 1, ADDRESS, "a", 9);
    FailsAppend(s, Run(rs), IP_WINDOW - 1, "a", 1, 9);
    assert Run(rs).fails[0] == Run(rs).fails[..1][0];
  }

  /** And ten from another account at that moment. */
  lemma TwentyMisses() returns (rs: seq<Request>)
    ensures Ordered(rs) && |rs| > 0 && rs[|rs| - 1].now == IP_WINDOW - 1
    ensures var s := Run(rs);
      && |s.fails| == 20 && s.fails[0].time == 0 && FailsFrom(s, 1, IP_WINDOW - 1)
      && s.ips == map[ADDRESS := Counter(20, IP_WINDOW)] && s.accounts.Keys == {"a", "b"} && s.locks.Keys <= {"a", "b"}
  {
    hide Run;
    rs := TenMisses();
    var s := Run(rs);
    rs := Misses(rs, IP_WINDOW - 1, ADDRESS, "b", 10);
    FailsAppend(s, Run(rs), IP_WINDOW - 1, "b", 1, 10);
    assert Run(rs).fails[0] == Run(rs).fails[..1][0];
  }

  /** Then the window ends, and two other accounts miss ten times each in the next. */
  lemma FortyMisses() returns (rs: seq<Request>)
    ensures Ordered(rs)
    ensures var s := Run(rs);
      && |s.fails| == 40 && s.fails[0].time == 0 && FailsFrom(s, 20, IP_WINDOW)
      && forall i :: 1 <= i < 20 ==> s.fails[i].time == IP_WINDOW - 1 && s.fails[i].ip == ADDRESS
  {
    hide Run;
    rs := TwentyMisses();
    var s := Run(rs);
    rs := Misses(rs, IP_WINDOW, ADDRESS, "c", 10);
    var t := Run(rs);
    FailsAppend(s, t, IP_WINDOW, "c", 20, 10);
    rs := Misses(rs, IP_WINDOW, ADDRESS, "d", 10);
    FailsAppend(t, Run(rs), IP_WINDOW, "d", 20, 10);
    forall i | 0 <= i < 20 ensures Run(rs).fails[i] == s.fails[i] {
      assert Run(rs).fails[..20][i] == t.fails[..20][i] == s.fails[..20][i];
    }
  }

  /** The bound of 39 is reached: within the five minutes that leave out only the first of those forty. */
  lemma ThirtyNineReached() returns (rs: seq<Request>)
    ensures Ordered(rs) && Tally(Run(rs).fails, Within(ADDRESS, 1)) == 39
  {
    rs := FortyMisses();
    var fails := Run(rs).fails;
    TallyTail(fails, 1, Within(ADDRESS, 1));
    assert fails[..1] == [fails[0]] && [fails[0]][..0] == [];
  }

  /** The bound of 11 is reached: ten misses lock the account for half its window, and one more comes when the lock ends. */
  lemma ElevenReached() returns (rs: seq<Request>, window: nat)
    ensures Ordered(rs) && FailsOf(Run(rs), window) == 11
  {
    rs := Misses([], 0, ADDRESS, "a", 10);
    hide Run, Served, Tally;
    var s := Run(rs);
    window := s.windows["a"];
    MissServed(s, LOCK_DURATION, ADDRESS, "a");
    RunSnoc(rs, Miss(LOCK_DURATION, ADDRESS, "a"));
    rs := rs + [Miss(LOCK_DURATION, ADDRESS, "a")];
    var fails := Run(rs).fails;
    assert fails == s.fails + [fails[10]];
    TallyTail(fails, 0, InWindow(window));
    TallyZero(fails[..0], InWindow(window));
  }
}
