/** The login limiter and the revocation of sessions (internal/api/auth.go).  Times are
    nanoseconds. */
module Auth {
  import opened Prelude

  type Instant = int

  const SECOND: int := 1_000_000_000
  const LOGIN_FAILURE_WINDOW: int := 60 * SECOND
  const MAX_LOGIN_FAILURES := 5
  const MAX_SESSION_TTL: int := 24 * 3600 * SECOND

  datatype Failures = Failures(windowStartedAt: Instant, count: nat)

  /** The outcome of a login attempt: a verdict on the password, or a refusal to look at it
      with the seconds to wait. */
  datatype Verdict = Admitted | Wrong | TryLater(seconds: int)

  /** Is the window over? */
  predicate Over(f: Failures, now: Instant) { now >= f.windowStartedAt + LOGIN_FAILURE_WINDOW }

  /** A source's failures in a window that is not over. */
  function Current(f: Option<Failures>, now: Instant): Option<Failures> {
    if f.Some? && Over(f.value, now) then None else f
  }

  /** Whole seconds, rounded up. */
  function CeilSeconds(d: int): int { (d + SECOND - 1) / SECOND }

  /** One attempt of a source whose failures are `f`. */
  function Attempt(f: Option<Failures>, correct: bool, now: Instant): (Option<Failures>, Verdict) {
    var current := Current(f, now);
    if current.Some? && current.value.count >= MAX_LOGIN_FAILURES then
      var wait := CeilSeconds(current.value.windowStartedAt + LOGIN_FAILURE_WINDOW - now);
      (current, TryLater(if wait > 1 then wait else 1))
    else if correct then (None, Admitted)
    else
      (Some(Failures(if current.Some? then current.value.windowStartedAt else now,
                     (if current.Some? then current.value.count else 0) + 1)),
       Wrong)
  }

  function Lookup(m: map<string, Failures>, source: string): Option<Failures> {
    if source in m then Some(m[source]) else None
  }

  /** A session token: its text, whether signature, nonce and password version are right,
      and the times it claims, in seconds. */
  datatype Token = Token(text: string, genuine: bool, issuedAt: int, expiresAt: int)

  /** Is the token one of ours, for a sensible time, and not expired? */
  predicate InForce(t: Token, now: Instant) {
    t.genuine && t.issuedAt > 0 && t.expiresAt > t.issuedAt &&
    (t.expiresAt - t.issuedAt) * SECOND <= MAX_SESSION_TTL && now < t.expiresAt * SECOND
  }

  type Revocations = map<string, Instant>

  function Unexpired(revoked: Revocations, now: Instant): Revocations {
    map k | k in revoked && now < revoked[k] :: revoked[k]
  }

  predicate IsValid(revoked: Revocations, t: Token, now: Instant) {
    InForce(t, now) && t.text !in Unexpired(revoked, now)
  }

  function Validated(revoked: Revocations, t: Token, now: Instant): Revocations {
    if InForce(t, now) then Unexpired(revoked, now) else revoked
  }

  function Revoke(revoked: Revocations, t: Token, now: Instant): Revocations {
    if IsValid(revoked, t, now) then Unexpired(revoked, now)[t.text := t.expiresAt * SECOND]
    else Validated(revoked, t, now)
  }

  class Authenticator {
    var failures: map<string, Failures>
    var revoked: map<string, Instant>  // until when, by the token's text

    constructor ()
      ensures failures == map[] && revoked == map[]
    {
      failures, revoked := map[], map[];
    }

    /** Drops every source whose window is over. */
    method PruneFailures(now: Instant)
      modifies this`failures
      ensures forall s :: Lookup(failures, s) == Current(Lookup(old(failures), s), now)
    {
      var rest := failures.Keys;
      while rest != {}
        invariant rest <= old(failures).Keys
        invariant forall s :: Lookup(failures, s) ==
                    if s in rest then Lookup(old(failures), s) else Current(Lookup(old(failures), s), now)
        decreases rest
      {
        var source :| source in rest;
        rest := rest - {source};
        if Over(failures[source], now) {
          failures := failures - {source};
        }
      }
    }

    /** The source's failures decide, and only they and expired ones of others change. */
    method VerifyLogin(source: string, correct: bool, now: Instant) returns (verdict: Verdict)
      modifies this`failures
      ensures (Lookup(failures, source), verdict) == Attempt(Lookup(old(failures), source), correct, now)
      ensures forall s :: s != source ==> Lookup(failures, s) == Current(Lookup(old(failures), s), now)
    {
      PruneFailures(now);
      assert Lookup(failures, source) == Current(Lookup(old(failures), source), now);
      if source in failures && failures[source].count >= MAX_LOGIN_FAILURES {
        var wait := CeilSeconds(failures[source].windowStartedAt + LOGIN_FAILURE_WINDOW - now);
        return TryLater(if wait > 1 then wait else 1);
      }
      ghost var pruned := failures;
      if correct {
        failures := failures - {source};
        assert forall s :: s != source ==> Lookup(failures, s) == Lookup(pruned, s);
        return Admitted;
      }
      var state := if source in failures then failures[source] else Failures(now, 0);
      failures := failures[source := state.(count := state.count + 1)];
      assert forall s :: s != source ==> Lookup(failures, s) == Lookup(pruned, s);
      verdict := Wrong;
    }

    /** Drops expired revocations and looks the token up among the others. */
    method SessionRevoked(text: string, now: Instant) returns (yes: bool)
      modifies this`revoked
      ensures revoked == Unexpired(old(revoked), now) && yes == (text in revoked)
    {
      revoked := map k | k in revoked && now < revoked[k] :: revoked[k];
      yes := text in revoked;
    }

    method ValidateSession(t: Token, now: Instant) returns (valid: bool)
      modifies this`revoked
      ensures valid == IsValid(old(revoked), t, now)
      ensures revoked == Validated(old(revoked), t, now)
    {
      if !t.genuine {
        return false;
      }
      if t.issuedAt <= 0 || t.expiresAt <= t.issuedAt || (t.expiresAt - t.issuedAt) * SECOND > MAX_SESSION_TTL ||
         now >= t.expiresAt * SECOND {
        return false;
      }
      var gone := SessionRevoked(t.text, now);
      valid := !gone;
    }

    /** Revokes a valid session until it expires. */
    method RevokeSession(t: Token, now: Instant)
      modifies this`revoked
      ensures revoked == Revoke(old(revoked), t, now)
    {
      var valid := ValidateSession(t, now);
      if !valid {
        return;
      }
      revoked := revoked[t.text := t.expiresAt * SECOND];
    }
  }

  /* ---- Whole histories of logins ---- */

  datatype Login = Login(source: string, correct: bool, now: Instant)

  predicate Ordered(logins: seq<Login>) { forall i, j :: 0 <= i < j < |logins| ==> logins[i].now <= logins[j].now }

  /** A source's failures after the logins; logins of other sources may prune them. */
  function FailuresAfter(logins: seq<Login>, source: string): Option<Failures> {
    if logins == [] then None
    else
      var login := logins[|logins| - 1];
      var before := FailuresAfter(logins[..|logins| - 1], source);
      if login.source == source then Attempt(before, login.correct, login.now).0 else Current(before, login.now)
  }

  /** The verdicts on a source's logins, in order. */
  function Verdicts(logins: seq<Login>, source: string): seq<Verdict> {
    if logins == [] then []
    else
      var login := logins[|logins| - 1];
      var before := logins[..|logins| - 1];
      if login.source == source
      then Verdicts(before, source) + [Attempt(FailuresAfter(before, source), login.correct, login.now).1]
      else Verdicts(before, source)
  }

  /** The source's own logins. */
  function Own(logins: seq<Login>, source: string): seq<Login> {
    if logins == [] then []
    else
      var login := logins[|logins| - 1];
      var before := Own(logins[..|logins| - 1], source);
      if login.source == source then before + [login] else before
  }

  /** What other sources do, and the pruning they cause, never changes a source's verdicts. */
  lemma {:induction false} SourcesAreIsolated(logins: seq<Login>, source: string, now: Instant)
    requires Ordered(logins) && forall i :: 0 <= i < |logins| ==> logins[i].now <= now
    ensures Verdicts(logins, source) == Verdicts(Own(logins, source), source)
    ensures Current(FailuresAfter(logins, source), now) == Current(FailuresAfter(Own(logins, source), source), now)
  {
    if logins != [] {
      var last := |logins| - 1;
      var before, login := logins[..last], logins[last];
      SourcesAreIsolated(before, source, login.now);
      if login.source == source {
        var own := Own(before, source);
        assert (own + [login])[..|own|] == own;
        SameCurrentSameVerdict(FailuresAfter(before, source), FailuresAfter(own, source), login.correct, login.now);
      }
    }
  }

  lemma SameCurrentSameVerdict(a: Option<Failures>, b: Option<Failures>, correct: bool, now: Instant)
    requires Current(a, now) == Current(b, now)
    ensures Attempt(a, correct, now) == Attempt(b, correct, now)
  {
  }

  /* ---- One source ---- */

  /** A state that attempts up to `now` can leave. */
  predicate Reached(f: Option<Failures>, now: Instant) {
    f.Some? ==> 1 <= f.value.count <= MAX_LOGIN_FAILURES && f.value.windowStartedAt <= now
  }

  lemma {:induction false} FailuresAreReached(logins: seq<Login>, source: string, now: Instant)
    requires Ordered(logins) && forall i :: 0 <= i < |logins| ==> logins[i].now <= now
    ensures Reached(FailuresAfter(logins, source), now)
  {
    if logins != [] {
      FailuresAreReached(logins[..|logins| - 1], source, logins[|logins| - 1].now);
    }
  }

  /** A refused source is told to wait 1 to 60 seconds.  It is the least whole number of
      seconds after which the password is looked at again, however often the source tries
      in vain until then. */
  lemma RetryAfterIsExact(f: Option<Failures>, correct: bool, now: Instant, seconds: int, again: bool)
    requires Reached(f, now) && Attempt(f, correct, now).1.TryLater?
    ensures var wait := Attempt(f, correct, now).1.seconds;
            1 <= wait <= 60 &&
            (0 <= seconds < wait ==>
              Attempt(Attempt(f, correct, now).0, again, now + seconds * SECOND).1.TryLater? &&
              Attempt(Attempt(f, correct, now).0, again, now + seconds * SECOND).0 == Attempt(f, correct, now).0) &&
            (seconds >= wait ==> !Attempt(Attempt(f, correct, now).0, again, now + seconds * SECOND).1.TryLater?)
  {
  }

  /** The verdict on login `k`. */
  function VerdictAt(logins: seq<Login>, k: nat): Verdict
    requires k < |logins|
  {
    Attempt(FailuresAfter(logins[..k], logins[k].source), logins[k].correct, logins[k].now).1
  }

  predicate Gets(logins: seq<Login>, k: nat, source: string, verdict: Verdict)
    requires k < |logins|
  {
    logins[k].source == source && VerdictAt(logins, k) == verdict
  }

  /** How many wrong passwords of the source were looked at from `lo` on and before `hi`. */
  function WrongIn(logins: seq<Login>, source: string, lo: Instant, hi: Instant): nat {
    if logins == [] then 0
    else
      var last := |logins| - 1;
      WrongIn(logins[..last], source, lo, hi) +
      if Gets(logins, last, source, Wrong) && lo <= logins[last].now < hi then 1 else 0
  }

  /** The source is not admitted from `lo` on and before `hi`. */
  ghost predicate NotAdmitted(logins: seq<Login>, source: string, lo: Instant, hi: Instant) {
    forall k :: 0 <= k < |logins| && lo <= logins[k].now < hi ==> !Gets(logins, k, source, Admitted)
  }

  lemma NotAdmittedBefore(logins: seq<Login>, source: string, lo: Instant, hi: Instant)
    requires logins != [] && NotAdmitted(logins, source, lo, hi)
    ensures NotAdmitted(logins[..|logins| - 1], source, lo, hi)
  {
    var before := logins[..|logins| - 1];
    forall k | 0 <= k < |before| && lo <= before[k].now < hi ensures !Gets(before, k, source, Admitted) {
      assert before[..k] == logins[..k];
      assert !Gets(logins, k, source, Admitted);
    }
  }

  /** How many wrong passwords may be looked at in the minute from `lo` on, when the source's
      window at `lo` is `f`: what is left of an open window, and a new window. */
  function Budget(f: Option<Failures>): int {
    match f
    case None => MAX_LOGIN_FAILURES
    case Some(open) => (MAX_LOGIN_FAILURES - open.count) + MAX_LOGIN_FAILURES
  }

  /** The logins fall into those before `lo` and those from `lo` on. */
  ghost predicate SplitAt(prior: seq<Login>, more: seq<Login>, lo: Instant) {
    Ordered(prior + more) && (forall k :: 0 <= k < |prior| ==> prior[k].now < lo) &&
    forall k :: 0 <= k < |more| ==> lo <= more[k].now
  }

  /** The window that is open at `lo`. */
  function OpenAt(prior: seq<Login>, source: string, lo: Instant): Option<Failures> {
    Current(FailuresAfter(prior, source), lo)
  }

  /** What is known in the minute from `lo` on when the window open at `lo` was `open` and is
      `f` now: `n` wrong passwords so far, the last login at `now`. */
  ghost predicate MinuteOk(open: Option<Failures>, f: Option<Failures>, n: int, lo: Instant, now: Instant) {
    var left := if open.Some? then MAX_LOGIN_FAILURES - open.value.count else 0;
    0 <= n <= Budget(open) &&
    (now < lo + LOGIN_FAILURE_WINDOW ==>
      match Current(f, if now < lo then lo else now)
      case None => n <= left
      case Some(w) =>
        if w.windowStartedAt < lo
        then open.Some? && w.windowStartedAt == open.value.windowStartedAt && n == w.count - open.value.count
        else n <= left + w.count)
  }

  /** One more login. */
  lemma MinuteNext(open: Option<Failures>, f: Option<Failures>, n: int, lo: Instant, before: Instant, correct: bool, now: Instant)
    requires MinuteOk(open, f, n, lo, before) && before <= now && lo <= now
    requires open.Some? ==> 1 <= open.value.count <= MAX_LOGIN_FAILURES && open.value.windowStartedAt < lo
    requires Reached(f, now) && (now < lo + LOGIN_FAILURE_WINDOW ==> !Attempt(f, correct, now).1.Admitted?)
    ensures var (f', verdict) := Attempt(f, correct, now);
            MinuteOk(open, f', n + if verdict == Wrong && now < lo + LOGIN_FAILURE_WINDOW then 1 else 0, lo, now)
  {
  }

  /** A login of somebody else. */
  lemma MinuteWaits(open: Option<Failures>, f: Option<Failures>, n: int, lo: Instant, before: Instant, now: Instant)
    requires MinuteOk(open, f, n, lo, before) && before <= now && lo <= now
    requires open.Some? ==> 1 <= open.value.count <= MAX_LOGIN_FAILURES
    requires Reached(f, now)
    ensures MinuteOk(open, Current(f, now), n, lo, now)
  {
  }

  /** The time of the last login, or some time before `lo`. */
  function LastTime(logins: seq<Login>, lo: Instant): Instant {
    if logins == [] then lo - 1 else logins[|logins| - 1].now
  }

  lemma SplitBefore(prior: seq<Login>, more: seq<Login>, lo: Instant)
    requires SplitAt(prior, more, lo)
    ensures Ordered(prior)
    ensures more != [] ==>
              var all := prior + more;
              all[..|all| - 1] == prior + more[..|more| - 1] && SplitAt(prior, more[..|more| - 1], lo) &&
              forall k :: 0 <= k < |all| ==> all[k].now <= all[|all| - 1].now
  {
    var all := prior + more;
    assert forall k :: 0 <= k < |prior| ==> all[k] == prior[k];
    if more != [] {
      assert all[..|all| - 1] == prior + more[..|more| - 1];
    }
  }

  lemma {:induction false} MinuteIsOk(prior: seq<Login>, more: seq<Login>, source: string, lo: Instant)
    requires SplitAt(prior, more, lo) && NotAdmitted(prior + more, source, lo, lo + LOGIN_FAILURE_WINDOW)
    ensures MinuteOk(OpenAt(prior, source, lo), FailuresAfter(prior + more, source),
                     WrongIn(prior + more, source, lo, lo + LOGIN_FAILURE_WINDOW), lo, LastTime(prior + more, lo))
  {
    SplitBefore(prior, more, lo);
    FailuresAreReached(prior, source, lo - 1);
    if more == [] {
      MinuteStarts(prior, source, lo);
      assert prior + more == prior;
    } else {
      var all := prior + more;
      NotAdmittedBefore(all, source, lo, lo + LOGIN_FAILURE_WINDOW);
      MinuteIsOk(prior, more[..|more| - 1], source, lo);
      FailuresAreReached(all[..|all| - 1], source, all[|all| - 1].now);
      MinuteGoesOn(prior, all, source, lo);
    }
  }

  lemma {:induction false} MinuteStarts(prior: seq<Login>, source: string, lo: Instant)
    requires Ordered(prior) && forall k :: 0 <= k < |prior| ==> prior[k].now < lo
    ensures MinuteOk(OpenAt(prior, source, lo), FailuresAfter(prior, source),
                     WrongIn(prior, source, lo, lo + LOGIN_FAILURE_WINDOW), lo, LastTime(prior, lo))
  {
    FailuresAreReached(prior, source, lo - 1);
    NothingBefore(prior, source, lo, lo + LOGIN_FAILURE_WINDOW);
  }

  lemma MinuteGoesOn(prior: seq<Login>, all: seq<Login>, source: string, lo: Instant)
    requires all != [] && Ordered(all) && lo <= all[|all| - 1].now && Reached(FailuresAfter(prior, source), lo - 1)
    requires NotAdmitted(all, source, lo, lo + LOGIN_FAILURE_WINDOW)
    requires var before := all[..|all| - 1];
             Reached(FailuresAfter(before, source), all[|all| - 1].now) &&
             MinuteOk(OpenAt(prior, source, lo), FailuresAfter(before, source),
                      WrongIn(before, source, lo, lo + LOGIN_FAILURE_WINDOW), lo, LastTime(before, lo))
    ensures MinuteOk(OpenAt(prior, source, lo), FailuresAfter(all, source),
                     WrongIn(all, source, lo, lo + LOGIN_FAILURE_WINDOW), lo, LastTime(all, lo))
  {
    var last := |all| - 1;
    var before, login := all[..last], all[last];
    var f, n := FailuresAfter(before, source), WrongIn(before, source, lo, lo + LOGIN_FAILURE_WINDOW);
    if login.source == source {
      assert !Gets(all, last, source, Admitted) || login.now >= lo + LOGIN_FAILURE_WINDOW;
      MinuteNext(OpenAt(prior, source, lo), f, n, lo, LastTime(before, lo), login.correct, login.now);
    } else {
      MinuteWaits(OpenAt(prior, source, lo), f, n, lo, LastTime(before, lo), login.now);
    }
  }

  /** In a minute in which a source is not admitted, no more of its wrong passwords are
      looked at than the window open at its beginning leaves room for: five when none is
      open, and ten less what it has counted when one is. */
  lemma {:induction false} NoMoreThanBudget(prior: seq<Login>, more: seq<Login>, source: string, lo: Instant)
    requires SplitAt(prior, more, lo) && NotAdmitted(prior + more, source, lo, lo + LOGIN_FAILURE_WINDOW)
    ensures WrongIn(prior + more, source, lo, lo + LOGIN_FAILURE_WINDOW) <= Budget(OpenAt(prior, source, lo))
  {
    MinuteIsOk(prior, more, source, lo);
  }

  /* ---- The bound is reached ---- */

  /** `m` wrong passwords at once. */
  function Streak(source: string, t: Instant, m: nat): (logins: seq<Login>)
    ensures |logins| == m && forall k :: 0 <= k < m ==> logins[k].now == t
  {
    seq(m, _ => Login(source, false, t))
  }

  lemma StreakNext(source: string, t: Instant, m: nat)
    requires m > 0
    ensures Streak(source, t, m) == Streak(source, t, m - 1) + [Login(source, false, t)]
  {
  }

  function CountOf(f: Option<Failures>): nat { if f.Some? then f.value.count else 0 }

  /** Login `k` of the source is looked at and wrong. */
  predicate WrongAt(logins: seq<Login>, k: nat, source: string)
    requires k < |logins|
  {
    Gets(logins, k, source, Wrong)
  }

  lemma {:induction false} OneMoreWrong(logins: seq<Login>, source: string, t: Instant, lo: Instant, hi: Instant)
    requires lo <= t < hi && CountOf(OpenAt(logins, source, t)) < MAX_LOGIN_FAILURES
    ensures var all, open := logins + [Login(source, false, t)], OpenAt(logins, source, t);
            OpenAt(all, source, t) ==
              Some(Failures(if open.Some? then open.value.windowStartedAt else t, CountOf(open) + 1)) &&
            WrongIn(all, source, lo, hi) == WrongIn(logins, source, lo, hi) + 1 && WrongAt(all, |logins|, source)
  {
    var all := logins + [Login(source, false, t)];
    assert all[..|all| - 1] == logins && all[..|logins|] == logins && all[|logins|] == Login(source, false, t);
  }

  lemma WrongStays(logins: seq<Login>, more: seq<Login>, k: nat, source: string)
    requires k < |logins| && WrongAt(logins, k, source)
    ensures WrongAt(logins + more, k, source)
  {
    assert (logins + more)[..k] == logins[..k];
  }

  /** From login `n` on all are looked at and wrong. */
  ghost predicate AllWrongFrom(logins: seq<Login>, n: nat, source: string) {
    forall k :: n <= k < |logins| ==> WrongAt(logins, k, source)
  }

  lemma AllWrongNext(logins: seq<Login>, n: nat, login: Login, source: string)
    requires AllWrongFrom(logins, n, source) && WrongAt(logins + [login], |logins|, source)
    ensures AllWrongFrom(logins + [login], n, source)
  {
    forall k | n <= k < |logins + [login]| ensures WrongAt(logins + [login], k, source) {
      if k < |logins| {
        WrongStays(logins, [login], k, source);
      }
    }
  }

  lemma AllWrongJoins(logins: seq<Login>, n: nat, more: seq<Login>, source: string)
    requires AllWrongFrom(logins, n, source) && AllWrongFrom(logins + more, |logins|, source)
    ensures AllWrongFrom(logins + more, n, source)
  {
    forall k | n <= k < |logins + more| ensures WrongAt(logins + more, k, source) {
      if k < |logins| {
        WrongStays(logins, more, k, source);
      }
    }
  }

  lemma Regroup(a: seq<Login>, b: seq<Login>, c: seq<Login>)
    ensures a + (b + c) == (a + b) + c
  {
  }

  /** `all` goes on where `logins` ended with `m` wrong passwords at `t`, all looked at. */
  ghost predicate StreakDone(logins: seq<Login>, all: seq<Login>, source: string, t: Instant, m: nat, lo: Instant, hi: Instant) {
    var open := OpenAt(logins, source, t);
    |all| == |logins| + m &&
    OpenAt(all, source, t) == (if m == 0 then open
                               else Some(Failures(if open.Some? then open.value.windowStartedAt else t, CountOf(open) + m))) &&
    WrongIn(all, source, lo, hi) == WrongIn(logins, source, lo, hi) + m && AllWrongFrom(all, |logins|, source)
  }

  lemma StreakGoesOn(logins: seq<Login>, all: seq<Login>, source: string, t: Instant, m: nat, lo: Instant, hi: Instant)
    requires StreakDone(logins, all, source, t, m, lo, hi)
    requires lo <= t < hi && CountOf(OpenAt(logins, source, t)) + m < MAX_LOGIN_FAILURES
    ensures StreakDone(logins, all + [Login(source, false, t)], source, t, m + 1, lo, hi)
  {
    OneMoreWrong(all, source, t, lo, hi);
    AllWrongNext(all, |logins|, Login(source, false, t), source);
  }

  /** A streak that the open window has room for is looked at to the end. */
  lemma {:induction false} StreakCounts(logins: seq<Login>, source: string, t: Instant, m: nat, lo: Instant, hi: Instant)
    requires lo <= t < hi && CountOf(OpenAt(logins, source, t)) + m <= MAX_LOGIN_FAILURES
    ensures StreakDone(logins, logins + Streak(source, t, m), source, t, m, lo, hi)
  {
    if m == 0 {
      assert logins + Streak(source, t, 0) == logins;
    } else {
      StreakCounts(logins, source, t, m - 1, lo, hi);
      StreakGoesOn(logins, logins + Streak(source, t, m - 1), source, t, m - 1, lo, hi);
      StreakNext(source, t, m);
      Regroup(logins, Streak(source, t, m - 1), [Login(source, false, t)]);
    }
  }

  /** The logins that use up the budget: the open window is filled at once, and once it is
      over another one. */
  function Spree(open: Option<Failures>, source: string, lo: Instant): seq<Login>
    requires open.Some? ==> open.value.count <= MAX_LOGIN_FAILURES
  {
    match open
    case None => Streak(source, lo, MAX_LOGIN_FAILURES)
    case Some(f) =>
      Streak(source, lo, MAX_LOGIN_FAILURES - f.count) +
      Streak(source, f.windowStartedAt + LOGIN_FAILURE_WINDOW, MAX_LOGIN_FAILURES)
  }

  /** The logins continue the prior ones from `lo` on, and the source is not admitted within
      the minute. */
  ghost predicate Continues(prior: seq<Login>, more: seq<Login>, source: string, lo: Instant) {
    SplitAt(prior, more, lo) && NotAdmitted(prior + more, source, lo, lo + LOGIN_FAILURE_WINDOW)
  }

  lemma AllWrongContinues(prior: seq<Login>, more: seq<Login>, source: string, lo: Instant)
    requires SplitAt(prior, more, lo)
    requires AllWrongFrom(prior + more, |prior|, source)
    ensures Continues(prior, more, source, lo)
  {
    var all := prior + more;
    forall k | 0 <= k < |all| && lo <= all[k].now < lo + LOGIN_FAILURE_WINDOW ensures !Gets(all, k, source, Admitted) {
      assert k >= |prior| ==> WrongAt(all, k, source);
    }
  }

  lemma SpreeSplits(prior: seq<Login>, open: Option<Failures>, source: string, lo: Instant)
    requires Ordered(prior) && forall k :: 0 <= k < |prior| ==> prior[k].now < lo
    requires open.Some? ==> open.value.count <= MAX_LOGIN_FAILURES && lo < open.value.windowStartedAt + LOGIN_FAILURE_WINDOW
    ensures SplitAt(prior, Spree(open, source, lo), lo)
  {
    var more := Spree(open, source, lo);
    assert forall i, j :: 0 <= i < j < |more| ==> lo <= more[i].now <= more[j].now;
  }

  /** Some continuation uses up the budget. */
  lemma {:induction false} BudgetIsReached(prior: seq<Login>, source: string, lo: Instant)
    requires Ordered(prior) && forall k :: 0 <= k < |prior| ==> prior[k].now < lo
    ensures var open := OpenAt(prior, source, lo);
            (open.Some? ==> 1 <= open.value.count <= MAX_LOGIN_FAILURES) &&
            Continues(prior, Spree(open, source, lo), source, lo) &&
            WrongIn(prior + Spree(open, source, lo), source, lo, lo + LOGIN_FAILURE_WINDOW) == Budget(open)
  {
    var open, hi := OpenAt(prior, source, lo), lo + LOGIN_FAILURE_WINDOW;
    FailuresAreReached(prior, source, lo - 1);
    NothingBefore(prior, source, lo, hi);
    var more := Spree(open, source, lo);
    SpreeCounts(prior, open, source, lo);
    SpreeSplits(prior, open, source, lo);
    AllWrongContinues(prior, more, source, lo);
  }

  /** `k` more wrong passwords of the source were looked at, and nothing else of it. */
  ghost predicate AddsWrong(logins: seq<Login>, more: seq<Login>, source: string, lo: Instant, hi: Instant, k: int) {
    WrongIn(logins + more, source, lo, hi) == WrongIn(logins, source, lo, hi) + k &&
    AllWrongFrom(logins + more, |logins|, source)
  }

  lemma AddsTwice(logins: seq<Login>, a: seq<Login>, b: seq<Login>, source: string, lo: Instant, hi: Instant, j: int, k: int)
    requires AddsWrong(logins, a, source, lo, hi, j) && AddsWrong(logins + a, b, source, lo, hi, k)
    ensures AddsWrong(logins, a + b, source, lo, hi, j + k)
  {
    Regroup(logins, a, b);
    AllWrongJoins(logins + a, |logins|, b, source);
  }

  /** The streak that fills the open window. */
  lemma FillsWindow(prior: seq<Login>, source: string, lo: Instant, f: Failures, m: nat)
    requires OpenAt(prior, source, lo) == Some(f) && f.count + m == MAX_LOGIN_FAILURES
    ensures AddsWrong(prior, Streak(source, lo, m), source, lo, lo + LOGIN_FAILURE_WINDOW, m)
    ensures OpenAt(prior + Streak(source, lo, m), source, f.windowStartedAt + LOGIN_FAILURE_WINDOW) == None
  {
    StreakCounts(prior, source, lo, m, lo, lo + LOGIN_FAILURE_WINDOW);
    WindowIsOver(prior + Streak(source, lo, m), source, lo, f);
  }

  /** A streak when no window is open. */
  lemma FillsNextWindow(logins: seq<Login>, source: string, t: Instant, lo: Instant, m: nat)
    requires OpenAt(logins, source, t) == None && m <= MAX_LOGIN_FAILURES && lo <= t < lo + LOGIN_FAILURE_WINDOW
    ensures AddsWrong(logins, Streak(source, t, m), source, lo, lo + LOGIN_FAILURE_WINDOW, m)
  {
    StreakCounts(logins, source, t, m, lo, lo + LOGIN_FAILURE_WINDOW);
  }

  lemma SpreeCounts(prior: seq<Login>, open: Option<Failures>, source: string, lo: Instant)
    requires OpenAt(prior, source, lo) == open
    requires open.Some? ==> open.value.count <= MAX_LOGIN_FAILURES && open.value.windowStartedAt < lo
    ensures AddsWrong(prior, Spree(open, source, lo), source, lo, lo + LOGIN_FAILURE_WINDOW, Budget(open))
  {
    match open
    case None => FillsNextWindow(prior, source, lo, lo, MAX_LOGIN_FAILURES);
    case Some(f) =>
      var m, end := MAX_LOGIN_FAILURES - f.count, f.windowStartedAt + LOGIN_FAILURE_WINDOW;
      FillsWindow(prior, source, lo, f, m);
      FillsNextWindow(prior + Streak(source, lo, m), source, end, lo, MAX_LOGIN_FAILURES);
      AddsTwice(prior, Streak(source, lo, m), Streak(source, end, MAX_LOGIN_FAILURES), source, lo,
                lo + LOGIN_FAILURE_WINDOW, m, MAX_LOGIN_FAILURES);
  }

  /** A window that is open at `lo` is over when its time has passed. */
  lemma WindowIsOver(logins: seq<Login>, source: string, lo: Instant, f: Failures)
    requires OpenAt(logins, source, lo).Some? && OpenAt(logins, source, lo).value.windowStartedAt == f.windowStartedAt
    ensures OpenAt(logins, source, f.windowStartedAt + LOGIN_FAILURE_WINDOW) == None
  {
  }

  /** Every minute meets the limit of five, whatever the source tries, exactly when no window
      of it is open at the beginning or the open one is full. */
  lemma {:induction false} FiveInAMinuteExactly(prior: seq<Login>, source: string, lo: Instant)
    requires Ordered(prior) && forall k :: 0 <= k < |prior| ==> prior[k].now < lo
    ensures (forall more :: Continues(prior, more, source, lo) ==>
              WrongIn(prior + more, source, lo, lo + LOGIN_FAILURE_WINDOW) <= MAX_LOGIN_FAILURES) <==>
            (OpenAt(prior, source, lo).None? || OpenAt(prior, source, lo).value.count == MAX_LOGIN_FAILURES)
  {
    var open, hi := OpenAt(prior, source, lo), lo + LOGIN_FAILURE_WINDOW;
    BudgetIsReached(prior, source, lo);
    if open.None? || open.value.count == MAX_LOGIN_FAILURES {
      forall more | Continues(prior, more, source, lo) ensures WrongIn(prior + more, source, lo, hi) <= MAX_LOGIN_FAILURES {
        NoMoreThanBudget(prior, more, source, lo);
      }
    } else {
      assert Continues(prior, Spree(open, source, lo), source, lo);
    }
  }

  /** Where the logins from `lo` on begin. */
  lemma {:induction false} SplitsAt(logins: seq<Login>, lo: Instant, n: nat) returns (k: nat)
    requires Ordered(logins) && n <= |logins| && forall j :: n <= j < |logins| ==> lo <= logins[j].now
    ensures k <= n && (k > 0 ==> logins[k - 1].now < lo) && forall j :: k <= j < |logins| ==> lo <= logins[j].now
  {
    if n == 0 || logins[n - 1].now < lo {
      k := n;
    } else {
      k := SplitsAt(logins, lo, n - 1);
    }
  }

  lemma SplitHere(logins: seq<Login>, lo: Instant, k: nat)
    requires Ordered(logins) && k <= |logins| && (k > 0 ==> logins[k - 1].now < lo)
    requires forall j :: k <= j < |logins| ==> lo <= logins[j].now
    ensures logins[..k] + logins[k..] == logins && SplitAt(logins[..k], logins[k..], lo)
  {
    assert logins[..k] + logins[k..] == logins;
  }

  /** Over any minute in which a source is not admitted, no more than nine of its wrong
      passwords are looked at. */
  lemma NoMoreThanNineInAMinute(logins: seq<Login>, source: string, lo: Instant)
    requires Ordered(logins) && NotAdmitted(logins, source, lo, lo + LOGIN_FAILURE_WINDOW)
    ensures WrongIn(logins, source, lo, lo + LOGIN_FAILURE_WINDOW) <= 9
  {
    var k := SplitsAt(logins, lo, |logins|);
    var prior, more := logins[..k], logins[k..];
    SplitHere(logins, lo, k);
    NoMoreThanBudget(prior, more, source, lo);
    FailuresAreReached(prior, source, lo);
  }

  /** When a window is over at `lo`, nothing was looked at from there on. */
  lemma {:induction false} NothingAfterTheWindow(logins: seq<Login>, source: string, lo: Instant, hi: Instant)
    requires Ordered(logins) && NotAdmitted(logins, source, lo, hi) && lo < hi
    requires logins != [] ==> logins[|logins| - 1].now <= lo
    requires Current(FailuresAfter(logins, source), lo) == None
    ensures WrongIn(logins, source, lo, hi) == 0
  {
    if logins != [] {
      var last := |logins| - 1;
      NotAdmittedBefore(logins, source, lo, hi);
      if logins[last].now < lo {
        NothingBefore(logins, source, lo, hi);
      } else {
        assert !Gets(logins, last, source, Admitted);
        NothingAfterTheWindow(logins[..last], source, lo, hi);
      }
    }
  }

  lemma {:induction false} NothingBefore(logins: seq<Login>, source: string, lo: Instant, hi: Instant)
    requires forall k :: 0 <= k < |logins| ==> logins[k].now < lo
    ensures WrongIn(logins, source, lo, hi) == 0
  {
    if logins != [] {
      NothingBefore(logins[..|logins| - 1], source, lo, hi);
    }
  }

  /** The current window counts exactly the wrong passwords looked at since it began, so in
      its own windows of 60 seconds the limiter looks at no more than five. */
  lemma {:induction false} WindowCounts(logins: seq<Login>, source: string)
    requires Ordered(logins) && FailuresAfter(logins, source).Some?
    requires var f := FailuresAfter(logins, source).value;
             NotAdmitted(logins, source, f.windowStartedAt, f.windowStartedAt + LOGIN_FAILURE_WINDOW)
    ensures var f := FailuresAfter(logins, source).value;
            1 <= f.count <= MAX_LOGIN_FAILURES &&
            WrongIn(logins, source, f.windowStartedAt, f.windowStartedAt + LOGIN_FAILURE_WINDOW) == f.count
  {
    var last := |logins| - 1;
    var before := logins[..last];
    var f := FailuresAfter(logins, source).value;
    NotAdmittedBefore(logins, source, f.windowStartedAt, f.windowStartedAt + LOGIN_FAILURE_WINDOW);
    FailuresAreReached(before, source, logins[last].now);
    var current := Current(FailuresAfter(before, source), logins[last].now);
    if current.Some? {
      WindowCounts(before, source);
    } else {
      NothingAfterTheWindow(before, source, f.windowStartedAt, f.windowStartedAt + LOGIN_FAILURE_WINDOW);
    }
  }

  /** One wrong password, four 59 seconds later, and five at the full minute. */
  function BurstLogin(k: nat): Login { Login("a", false, if k == 0 then 0 else if k < 5 then 59 * SECOND else 60 * SECOND) }

  function Burst(n: nat): seq<Login> { seq(n, k requires 0 <= k < n => BurstLogin(k)) }

  /** The failures after `n` logins of the burst. */
  function BurstFailures(n: nat): Option<Failures> {
    if n == 0 then None else if n <= 5 then Some(Failures(0, n)) else Some(Failures(60 * SECOND, n - 5))
  }

  lemma BurstStep(n: nat)
    requires n < 10
    ensures Attempt(BurstFailures(n), false, BurstLogin(n).now) == (BurstFailures(n + 1), Wrong)
  {
  }

  lemma {:induction false} BurstStates(n: nat)
    requires n <= 10
    ensures FailuresAfter(Burst(n), "a") == BurstFailures(n)
  {
    if n > 0 {
      assert Burst(n)[..n - 1] == Burst(n - 1) && Burst(n)[n - 1] == BurstLogin(n - 1);
      BurstStates(n - 1);
      BurstStep(n - 1);
    }
  }

  lemma {:induction false} BurstCounts(n: nat)
    requires 1 <= n <= 10
    ensures WrongIn(Burst(n), "a", 59 * SECOND, 59 * SECOND + LOGIN_FAILURE_WINDOW) == n - 1
  {
    assert Burst(n)[..n - 1] == Burst(n - 1) && Burst(n)[n - 1] == BurstLogin(n - 1);
    BurstStates(n - 1);
    BurstStep(n - 1);
    if n > 1 {
      BurstCounts(n - 1);
    } else {
      assert Burst(0) == [];
    }
  }

  /** Nine is reached: the limit of five does not hold for every minute. */
  lemma NineInAMinute()
    ensures Ordered(Burst(10)) && NotAdmitted(Burst(10), "a", 59 * SECOND, 59 * SECOND + LOGIN_FAILURE_WINDOW)
    ensures WrongIn(Burst(10), "a", 59 * SECOND, 59 * SECOND + LOGIN_FAILURE_WINDOW) == 9
  {
    BurstCounts(10);
  }

  /* ---- Revocation ---- */

  datatype SessionStep = Validate(t: Token, now: Instant) | Logout(t: Token, now: Instant)

  function Revoked(revoked: Revocations, steps: seq<SessionStep>): Revocations {
    if steps == [] then revoked
    else
      var before := Revoked(revoked, steps[..|steps| - 1]);
      match steps[|steps| - 1]
      case Validate(t, now) => Validated(before, t, now)
      case Logout(t, now) => Revoke(before, t, now)
  }

  /** A revocation is in the table until the token has expired; texts name tokens. */
  ghost predicate Remembered(revoked: Revocations, t: Token, now: Instant) {
    now < t.expiresAt * SECOND ==> t.text in revoked && revoked[t.text] == t.expiresAt * SECOND
  }

  predicate NamesTokens(steps: seq<SessionStep>, t: Token) {
    forall i | 0 <= i < |steps| :: steps[i].t.text == t.text ==> steps[i].t == t
  }

  lemma {:induction false} RevocationIsRemembered(revoked: Revocations, steps: seq<SessionStep>, t: Token, now: Instant)
    requires Remembered(revoked, t, if steps == [] then now else steps[0].now) && NamesTokens(steps, t)
    requires forall i, j :: 0 <= i < j < |steps| ==> steps[i].now <= steps[j].now
    requires forall i :: 0 <= i < |steps| ==> steps[i].now <= now
    ensures Remembered(Revoked(revoked, steps), t, now)
  {
    if steps != [] {
      var last := |steps| - 1;
      RevocationIsRemembered(revoked, steps[..last], t, steps[last].now);
    }
  }

  /** A token that was valid when it was revoked never validates again, whatever sessions
      are validated or revoked in between. */
  lemma {:induction false} RevokedForever(revoked: Revocations, t: Token, at: Instant, steps: seq<SessionStep>, now: Instant)
    requires IsValid(revoked, t, at) && NamesTokens(steps, t)
    requires forall i, j :: 0 <= i < j < |steps| ==> steps[i].now <= steps[j].now
    requires at <= now && forall i :: 0 <= i < |steps| ==> at <= steps[i].now <= now
    ensures !IsValid(Revoked(Revoke(revoked, t, at), steps), t, now)
  {
    RevocationIsRemembered(Revoke(revoked, t, at), steps, t, now);
  }

  /** Revoking and validating other tokens never ends a session. */
  lemma {:induction false} OthersDoNotRevoke(revoked: Revocations, steps: seq<SessionStep>, t: Token, now: Instant)
    requires t.text !in revoked
    requires forall i :: 0 <= i < |steps| ==> steps[i].Logout? ==> steps[i].t.text != t.text
    ensures IsValid(Revoked(revoked, steps), t, now) <==> InForce(t, now)
  {
    if steps != [] {
      OthersDoNotRevoke(revoked, steps[..|steps| - 1], t, now);
      StillAbsent(revoked, steps, t);
    }
  }

  lemma {:induction false} StillAbsent(revoked: Revocations, steps: seq<SessionStep>, t: Token)
    requires t.text !in revoked
    requires forall i :: 0 <= i < |steps| ==> steps[i].Logout? ==> steps[i].t.text != t.text
    ensures t.text !in Revoked(revoked, steps)
  {
    if steps != [] {
      StillAbsent(revoked, steps[..|steps| - 1], t);
    }
  }
}
