/** What every run keeps about the failed-login counter and the lock: five failures, 15 minutes (900000 ms). */
module AuthLockout {
  import opened Common
  import opened AuthModel

  /** The counter has reached the limit exactly when a lock time is set. */
  predicate LockMatchesCount(u: User) {
    u.failedLoginCount >= 5 <==> u.lockedUntil.Some?
  }

  ghost predicate LocksSound(s: AuthState) {
    forall i :: 0 <= i < |s.users| ==> LockMatchesCount(s.users[i])
  }

  /** The account a login call names, if any. */
  function Target(s: AuthState, e: Event): Option<UserId>
    requires e.LoginCall?
  {
    var scoped := e.slug.Some? && e.slug.value != "";
    if scoped && e.slug.value !in s.orgs then None
    else FindUserByEmail(s.users, e.email, if scoped then Some(s.orgs[e.slug.value].id) else None)
  }

  /** The call reaches the password comparison for account `u`. */
  predicate Evaluated(s: AuthState, e: Event, u: UserId) {
    && e.LoginCall? && Target(s, e) == Some(u)
    && s.users[u].passwordHash.Some?
    && (s.users[u].lockedUntil.None? || s.users[u].lockedUntil.value <= e.now)
    && !(e.slug.Some? && e.slug.value != "" && s.orgs[e.slug.value].suspended)
  }

  predicate WrongPassword(s: AuthState, e: Event, u: UserId) {
    Evaluated(s, e, u) && s.users[u].passwordHash.value != e.password
  }

  /** A step that clears the counter of `u`: a login that passes every check, or a completed reset. */
  predicate Clears(s: AuthState, e: Event, u: UserId) {
    || (Evaluated(s, e, u) && !WrongPassword(s, e, u)
        && !(s.users[u].tenant.Some? && !s.users[u].emailVerified && u in s.pendingVerification))
    || (e.ResetCall? && e.link in s.resets && s.resets[e.link].userId == u
        && !s.resets[e.link].used && e.now <= s.resets[e.link].expiresAt)
  }

  /** How one step changes one account's counter and lock. */
  ghost predicate CounterMoves(before: User, after: User, wrong: bool, clears: bool, now: int) {
    if wrong then
      && after.failedLoginCount == before.failedLoginCount + 1
      && after.lockedUntil ==
           (if after.failedLoginCount >= 5 then Some(now + 900_000) else None)
    else if clears then after.failedLoginCount == 0 && after.lockedUntil == None
    else after.failedLoginCount == before.failedLoginCount && after.lockedUntil == before.lockedUntil
  }

  lemma LoginUsers(s: AuthState, e: Event)
    requires e.LoginCall?
    ensures var users, target := Apply(s, e).users, Target(s, e);
            if target.Some? && WrongPassword(s, e, target.value) then
              users == s.users[target.value := AfterWrongPassword(s.users[target.value], e.now)]
            else if target.Some? && Clears(s, e, target.value) then
              users == s.users[target.value := s.users[target.value].(failedLoginCount := 0, lockedUntil := None)]
            else users == s.users
  {
    var target := Target(s, e);
    if target.None? {
      assert Apply(s, e) == s;
    } else {
      assert s.users[target.value].tenant.Some? <==> e.slug.Some? && e.slug.value != "";
    }
  }

  lemma LoginCounter(s: AuthState, e: Event, u: UserId)
    requires e.LoginCall? && u < |s.users|
    ensures |Apply(s, e).users| == |s.users|
    ensures CounterMoves(s.users[u], Apply(s, e).users[u], WrongPassword(s, e, u), Clears(s, e, u), e.now)
  {
    LoginUsers(s, e);
    if Target(s, e) != Some(u) {
      assert !WrongPassword(s, e, u) && !Clears(s, e, u);
    }
  }

  /** Exactly which steps touch the counter and the lock of an account, and how. */
  lemma CounterStep(s: AuthState, e: Event, u: UserId)
    requires u < |s.users|
    ensures |Apply(s, e).users| == |s.users|
    ensures CounterMoves(s.users[u], Apply(s, e).users[u], WrongPassword(s, e, u), Clears(s, e, u), e.now)
  {
    if e.LoginCall? {
      LoginCounter(s, e, u);
    }
  }

  /** A login during the lock is refused and changes nothing, whatever the password. */
  lemma LockedAttemptChangesNothing(s: AuthState, e: Event, u: UserId)
    requires e.LoginCall? && Target(s, e) == Some(u) && s.users[u].passwordHash.Some?
    requires s.users[u].lockedUntil.Some? && e.now < s.users[u].lockedUntil.value
    ensures Login(s, e.slug, e.email, e.password, e.now, e.drawn) == (s, Err(AccountLocked))
  {
  }

  lemma NoFailuresIsSound(s: AuthState)
    requires forall i :: 0 <= i < |s.users| ==> s.users[i].failedLoginCount == 0 && s.users[i].lockedUntil == None
    ensures LocksSound(s)
  {
  }

  lemma StepKeepsLocks(s: AuthState, e: Event)
    requires LocksSound(s)
    ensures LocksSound(Apply(s, e)) && |Apply(s, e).users| == |s.users|
  {
    CounterStepKeepsUsers(s, e);
    forall u | 0 <= u < |s.users| ensures LockMatchesCount(Apply(s, e).users[u]) {
      CounterStep(s, e, u);
    }
  }

  lemma {:induction false} EveryRunKeepsLocks(s: AuthState, es: seq<Event>)
    requires LocksSound(s)
    ensures LocksSound(Run(s, es)) && |Run(s, es).users| == |s.users|
    decreases |es|
  {
    if |es| > 0 {
      EveryRunKeepsLocks(s, es[..|es| - 1]);
      StepKeepsLocks(Run(s, es[..|es| - 1]), es[|es| - 1]);
    }
  }

  lemma CounterStepKeepsUsers(s: AuthState, e: Event)
    ensures |Apply(s, e).users| == |s.users|
  {
    if |s.users| > 0 {
      CounterStep(s, e, 0);
    }
  }

  /** The times of the wrong passwords evaluated for `u` along a run. */
  function WrongTimes(s: AuthState, es: seq<Event>, u: UserId): seq<int> {
    if |es| == 0 then []
    else
      var prev, e := Run(s, es[..|es| - 1]), es[|es| - 1];
      WrongTimes(s, es[..|es| - 1], u) + (if WrongPassword(prev, e, u) then [e.now] else [])
  }

  ghost predicate NeverCleared(s: AuthState, es: seq<Event>, u: UserId) {
    forall i :: 0 <= i < |es| ==> !Clears(Run(s, es[..i]), es[i], u)
  }

  /** Consecutive evaluations from the fifth on are at least one lockout apart. */
  ghost predicate Spaced(times: seq<int>) {
    forall n :: 5 <= n < |times| ==> times[n] >= times[n - 1] + 900_000
  }

  lemma SpacedAppend(times: seq<int>, now: int)
    requires Spaced(times)
    requires |times| >= 5 ==> now >= times[|times| - 1] + 900_000
    ensures Spaced(times + [now])
  {
  }

  /** The counter and lock an account shows after wrong passwords at these times and no clearing. */
  ghost predicate Tracks(u: User, times: seq<int>) {
    && u.failedLoginCount == |times|
    && u.lockedUntil == (if |times| >= 5 then Some(times[|times| - 1] + 900_000) else None)
    && Spaced(times)
  }

  /** A wrong password is only looked at when no lock is running. */
  lemma WrongIsUnlocked(s: AuthState, e: Event, u: UserId)
    requires u < |s.users| && WrongPassword(s, e, u)
    ensures s.users[u].lockedUntil.Some? ==> s.users[u].lockedUntil.value <= e.now
  {
  }

  lemma MoveTracks(before: User, after: User, times: seq<int>, wrong: bool, now: int)
    requires Tracks(before, times) && CounterMoves(before, after, wrong, false, now)
    requires wrong && before.lockedUntil.Some? ==> before.lockedUntil.value <= now
    ensures Tracks(after, times + (if wrong then [now] else []))
  {
    if wrong {
      SpacedAppend(times, now);
    } else {
      assert times + [] == times;
    }
  }

  lemma StepTracks(s: AuthState, e: Event, u: UserId, times: seq<int>)
    requires u < |s.users| && Tracks(s.users[u], times) && !Clears(s, e, u)
    ensures |Apply(s, e).users| == |s.users|
    ensures Tracks(Apply(s, e).users[u], times + (if WrongPassword(s, e, u) then [e.now] else []))
  {
    CounterStep(s, e, u);
    if WrongPassword(s, e, u) {
      WrongIsUnlocked(s, e, u);
    }
    MoveTracks(s.users[u], Apply(s, e).users[u], times, WrongPassword(s, e, u), e.now);
  }

  lemma {:induction false} CounterTracksTimes(s: AuthState, es: seq<Event>, u: UserId)
    requires u < |s.users| && s.users[u].failedLoginCount == 0 && s.users[u].lockedUntil == None
    requires NeverCleared(s, es, u)
    ensures |Run(s, es).users| == |s.users| && Tracks(Run(s, es).users[u], WrongTimes(s, es, u))
    decreases |es|
  {
    if |es| > 0 {
      var front := es[..|es| - 1];
      forall i | 0 <= i < |front| ensures !Clears(Run(s, front[..i]), front[i], u) {
        assert front[..i] == es[..i];
      }
      CounterTracksTimes(s, front, u);
      StepTracks(Run(s, front), es[|es| - 1], u, WrongTimes(s, front, u));
    }
  }

  lemma {:induction false} SpacingBound(times: seq<int>, n: nat)
    requires Spaced(times) && 5 <= n <= |times|
    ensures times[n - 1] >= times[5 - 1] + (n - 5) * 900_000
    decreases n
  {
    if n > 5 {
      SpacingBound(times, n - 1);
    }
  }

  /** The n-th wrong password (n >= 5) is no earlier than (n - 5) lockouts after the fifth. */
  lemma LockoutBound(s: AuthState, es: seq<Event>, u: UserId, n: nat)
    requires u < |s.users| && s.users[u].failedLoginCount == 0 && s.users[u].lockedUntil == None
    requires NeverCleared(s, es, u)
    requires 5 <= n <= |WrongTimes(s, es, u)|
    ensures var times := WrongTimes(s, es, u);
            times[n - 1] >= times[5 - 1] + (n - 5) * 900_000
  {
    CounterTracksTimes(s, es, u);
    SpacingBound(WrongTimes(s, es, u), n);
  }

  lemma SpacingBudget(times: seq<int>, start: int, length: nat)
    requires Spaced(times) && forall i :: 0 <= i < |times| ==> start <= times[i] <= start + length
    ensures |times| <= 5 + length / 900_000
  {
    if |times| >= 5 {
      var k := |times| - 5;
      SpacingBound(times, |times|);
      assert k * 900_000 <= length;
      assert k <= length / 900_000;
    }
  }

  /** So in a stretch of `length` ms at most 5 + length / 15 min wrong passwords are ever evaluated. */
  lemma GuessBudget(s: AuthState, es: seq<Event>, u: UserId, start: int, length: nat)
    requires u < |s.users| && s.users[u].failedLoginCount == 0 && s.users[u].lockedUntil == None
    requires NeverCleared(s, es, u)
    requires forall i :: 0 <= i < |WrongTimes(s, es, u)| ==> start <= WrongTimes(s, es, u)[i] <= start + length
    ensures |WrongTimes(s, es, u)| <= 5 + length / 900_000
  {
    CounterTracksTimes(s, es, u);
    SpacingBudget(WrongTimes(s, es, u), start, length);
  }
}
