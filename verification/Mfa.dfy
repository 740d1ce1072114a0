/** One-time codes: a code is valid for its own 30-second step and the two beside it, and a used-up key that lives
    90 seconds makes it good for one use across activation and login (section 5.2 of RFC 6238). */
module Mfa {
  import opened Common
  import opened RateLimit
  import opened Texts

  const STEP := 30_000
  const REPLAY_TTL := 90_000

  /** The code a secret generates for a step: the library's HMAC, any function here. */
  type Otp = (string, int) -> string

  function StepAt(now: int): int {
    now / STEP
  }

  // --- What a code comes to ---

  predicate NotBlank(c: char) {
    c != ' '
  }

  /** Unicode white space, character by character. */
  predicate WhiteSpace(c: char) {
    c in {'\t', '\n', '\U{000B}', '\U{000C}', '\r', ' ', '\U{0085}', '\U{00A0}', '\U{1680}', '\U{2000}', '\U{2001}', '\U{2002}', '\U{2003}',
          '\U{2004}', '\U{2005}', '\U{2006}', '\U{2007}', '\U{2008}', '\U{2009}', '\U{200A}', '\U{2028}', '\U{2029}', '\U{202F}', '\U{205F}',
          '\U{3000}'}
  }

  /** `r` is the code without blanks anywhere, or other white space at its ends. */
  ghost predicate IsNormal(code: string, r: string) {
    exists solid :: Filters(code, NotBlank, solid) && Trims(solid, WhiteSpace, r)
  }

  /** `time` lies in the 30 seconds of a step, or in those of a neighbour. */
  predicate InSpan(time: int, step: int) {
    (step - 1) * 30_000 <= time < (step + 2) * 30_000
  }

  ghost predicate ValidAt(otp: Otp, secret: string, now: int, c: string) {
    exists step :: InSpan(now, step) && c == otp(secret, step)
  }

  /** Unicode white space, as Go's TrimSpace has it. */
  predicate IsSpace(c: char) {
    || '\t' <= c <= '\r' || c == ' ' || c == '\U{0085}' || c == '\U{00A0}' || c == '\U{1680}'
    || '\U{2000}' <= c <= '\U{200A}' || c == '\U{2028}' || c == '\U{2029}' || c == '\U{202F}' || c == '\U{205F}' || c == '\U{3000}'
  }

  function WithoutBlanks(s: string): string {
    if |s| == 0 then "" else (if s[0] == ' ' then "" else [s[0]]) + WithoutBlanks(s[1..])
  }

  function TrimLeft(s: string): string {
    if |s| > 0 && IsSpace(s[0]) then TrimLeft(s[1..]) else s
  }

  function TrimRight(s: string): string {
    if |s| > 0 && IsSpace(s[|s| - 1]) then TrimRight(s[..|s| - 1]) else s
  }

  function Normalized(code: string): string {
    TrimRight(TrimLeft(WithoutBlanks(code)))
  }

  lemma SpacesAre(c: char)
    ensures IsSpace(c) <==> WhiteSpace(c)
  {}

  lemma {:induction false} BlanksFiltered(s: string)
    ensures Filters(s, NotBlank, WithoutBlanks(s))
  {
    hide Filters;
    if |s| == 0 {
      NothingFilters(NotBlank);
    } else {
      BlanksFiltered(s[1..]);
      OneMoreFilters(s, NotBlank, WithoutBlanks(s[1..]));
    }
  }

  lemma {:induction false} TrimRightIff(s: string, r: string)
    requires |s| == 0 || !IsSpace(s[0])
    ensures Trims(s, WhiteSpace, r) <==> r == TrimRight(s)
  {
    hide Trims, IsSpace, WhiteSpace;
    if |s| > 0 {
      SpacesAre(s[0]);
      SpacesAre(s[|s| - 1]);
    }
    if |s| > 0 && IsSpace(s[|s| - 1]) {
      TrimsBack(s, WhiteSpace, r);
      TrimRightIff(s[..|s| - 1], r);
    } else {
      NothingToTrim(s, WhiteSpace, r);
    }
  }

  lemma {:induction false} TrimIff(s: string, r: string)
    ensures Trims(s, WhiteSpace, r) <==> r == TrimRight(TrimLeft(s))
  {
    hide Trims, IsSpace, WhiteSpace;
    if |s| > 0 && IsSpace(s[0]) {
      SpacesAre(s[0]);
      TrimsFront(s, WhiteSpace, r);
      TrimIff(s[1..], r);
    } else {
      TrimRightIff(s, r);
    }
  }

  lemma NormalIff(code: string, r: string)
    ensures IsNormal(code, r) <==> r == Normalized(code)
  {
    hide Filters, Trims, TrimRight, TrimLeft, WithoutBlanks;
    var solid := WithoutBlanks(code);
    BlanksFiltered(code);
    TrimIff(solid, r);
    forall other | Filters(code, NotBlank, other) ensures other == solid {
      FiltersOnce(code, NotBlank, other, solid);
    }
  }

  /** The normalised code if it belongs to the current step or a neighbour. */
  function Validate(otp: Otp, code: string, secret: string, now: int): (key: Option<string>)
    ensures key.Some? <==> ValidAt(otp, secret, now, Normalized(code))
    ensures key.Some? ==> IsNormal(code, key.value)
  {
    var c, step := Normalized(code), StepAt(now);
    NormalIff(code, c);
    assert InSpan(now, step - 1) && InSpan(now, step) && InSpan(now, step + 1);
    if c == otp(secret, step - 1) || c == otp(secret, step) || c == otp(secret, step + 1) then Some(c) else None
  }

  function ReplayKey(user: string, code: string): string {
    "totp:" + user + ":" + code
  }

  /** A submission to either endpoint; `secret` is the user's at that time. */
  datatype Attempt = Attempt(now: int, user: string, secret: string, code: string)

  datatype Accept = Accept(time: int, user: string, code: string)

  datatype World = World(used: map<string, int>, accepted: seq<Accept>)

  function Tried(otp: Otp, s: World, a: Attempt): World {
    var code := Validate(otp, a.code, a.secret, a.now);
    if code.None? then s
    else
      var key := ReplayKey(a.user, code.value);
      if Held(s.used, key, a.now) then s
      else World(s.used[key := a.now + REPLAY_TTL], s.accepted + [Accept(a.now, a.user, code.value)])
  }

  /** A valid code is accepted unless its key is still held; then the key is held for 90 seconds. */
  ghost predicate Accepts(otp: Otp, before: map<string, int>, after: map<string, int>, a: Attempt, c: string, accepted: bool) {
    var key := "totp:" + a.user + ":" + c;
    && (accepted <==> ValidAt(otp, a.secret, a.now, c) && !(key in before && a.now < before[key]))
    && after == if accepted then before[key := a.now + 90_000] else before
  }

  /** What activation and login do with a code: validate, then consume. */
  method AcceptCode(limiter: Limiter, otp: Otp, a: Attempt, ghost s: World) returns (accepted: bool)
    requires limiter.used == s.used
    modifies limiter
    ensures limiter.used == Tried(otp, s, a).used
    ensures accepted <==> Tried(otp, s, a) != s
    ensures exists c :: IsNormal(a.code, c) && Accepts(otp, s.used, limiter.used, a, c, accepted)
    ensures accepted ==> Tried(otp, s, a).accepted == s.accepted + [Accept(a.now, a.user, Normalized(a.code))]
  {
    NormalIff(a.code, Normalized(a.code));
    var code := Validate(otp, a.code, a.secret, a.now);
    if code.None? {
      return false;
    }
    accepted := limiter.Consume(a.now, ReplayKey(a.user, code.value), REPLAY_TTL);
  }

  function Run(otp: Otp, attempts: seq<Attempt>): World {
    if |attempts| == 0 then World(map[], []) else Tried(otp, Run(otp, attempts[..|attempts| - 1]), attempts[|attempts| - 1])
  }

  predicate Apart(a: Accept, b: Accept) {
    a.user == b.user && a.code == b.code ==> a.time + REPLAY_TTL <= b.time
  }

  /** Acceptances of one code of one user are at least 90 seconds apart, and the key outlives the latest. */
  ghost predicate Spaced(s: World) {
    && (forall a :: a in s.accepted ==> ReplayKey(a.user, a.code) in s.used && a.time + REPLAY_TTL <= s.used[ReplayKey(a.user, a.code)])
    && (forall i, j :: 0 <= i < j < |s.accepted| ==> Apart(s.accepted[i], s.accepted[j]))
  }

  lemma TriedSpaced(otp: Otp, s: World, a: Attempt)
    requires Spaced(s)
    ensures Spaced(Tried(otp, s, a))
  {
    var t := Tried(otp, s, a);
    if t != s {
      forall i | 0 <= i < |s.accepted| ensures s.accepted[i] in s.accepted {}
    }
  }

  lemma {:induction false} RunSpaced(otp: Otp, attempts: seq<Attempt>)
    ensures Spaced(Run(otp, attempts))
  {
    if |attempts| > 0 {
      RunSpaced(otp, attempts[..|attempts| - 1]);
      TriedSpaced(otp, Run(otp, attempts[..|attempts| - 1]), attempts[|attempts| - 1]);
    }
  }

  lemma SpanIsShort(t: int, u: int, step: int)
    requires InSpan(t, step) && InSpan(u, step)
    ensures -90_000 < u - t < 90_000
  {}

  /** A code is accepted at most once in the span of any one step, over both endpoints together: no two acceptances of
      it by one user lie within the three steps for which it validates. */
  lemma AcceptedOnce(otp: Otp, attempts: seq<Attempt>, step: int, i: nat, j: nat)
    requires var accepted := Run(otp, attempts).accepted;
      && i < |accepted| && j < |accepted|
      && accepted[i].user == accepted[j].user && accepted[i].code == accepted[j].code
      && InSpan(accepted[i].time, step) && InSpan(accepted[j].time, step)
    ensures i == j
  {
    RunSpaced(otp, attempts);
    var accepted := Run(otp, attempts).accepted;
    SpanIsShort(accepted[i].time, accepted[j].time, step);
  }

  /** A key is held until 90 seconds after some acceptance. */
  ghost predicate KeysExplained(s: World) {
    forall key :: key in s.used ==> exists x :: x in s.accepted && ReplayKey(x.user, x.code) == key && s.used[key] == x.time + 90_000
  }

  lemma TriedExplained(otp: Otp, s: World, a: Attempt)
    requires KeysExplained(s)
    ensures KeysExplained(Tried(otp, s, a))
  {
    var t := Tried(otp, s, a);
    if t != s {
      var last := t.accepted[|s.accepted|];
      forall key | key in t.used ensures exists x :: x in t.accepted && ReplayKey(x.user, x.code) == key && t.used[key] == x.time + 90_000 {
        if key == ReplayKey(last.user, last.code) {
          assert last in t.accepted;
        } else {
          var x :| x in s.accepted && ReplayKey(x.user, x.code) == key && s.used[key] == x.time + 90_000;
          assert x in t.accepted;
        }
      }
    }
  }

  lemma {:induction false} RunExplained(otp: Otp, attempts: seq<Attempt>)
    ensures KeysExplained(Run(otp, attempts))
  {
    if |attempts| > 0 {
      RunExplained(otp, attempts[..|attempts| - 1]);
      TriedExplained(otp, Run(otp, attempts[..|attempts| - 1]), attempts[|attempts| - 1]);
    }
  }

  /** An acceptance under the same key, not yet 90 seconds ago. */
  ghost predicate JustAccepted(s: World, user: string, code: string, now: int) {
    exists x :: x in s.accepted && "totp:" + x.user + ":" + x.code == "totp:" + user + ":" + code && now < x.time + 90_000
  }

  lemma HeldIff(s: World, user: string, code: string, now: int)
    requires Spaced(s) && KeysExplained(s)
    ensures Held(s.used, ReplayKey(user, code), now) <==> JustAccepted(s, user, code, now)
  {
    var key := ReplayKey(user, code);
    if Held(s.used, key, now) {
      var x :| x in s.accepted && ReplayKey(x.user, x.code) == key && s.used[key] == x.time + 90_000;
    }
    if x :| x in s.accepted && "totp:" + x.user + ":" + x.code == key && now < x.time + 90_000 {
      assert ReplayKey(x.user, x.code) == key;
    }
  }

  /** After any run, an attempt is accepted exactly when its code is valid and was not accepted under the same key in the 90
      seconds before. */
  lemma AcceptedUnlessUsed(otp: Otp, attempts: seq<Attempt>, a: Attempt, c: string)
    requires IsNormal(a.code, c)
    ensures var s := Run(otp, attempts);
      Tried(otp, s, a) != s <==> ValidAt(otp, a.secret, a.now, c) && !JustAccepted(s, a.user, c, a.now)
  {
    hide IsNormal, ValidAt, JustAccepted, Spaced, KeysExplained, Held, Normalized;
    NormalIff(a.code, c);
    RunSpaced(otp, attempts);
    RunExplained(otp, attempts);
    HeldIff(Run(otp, attempts), a.user, c, a.now);
  }
}
