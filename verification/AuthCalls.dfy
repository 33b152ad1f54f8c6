/** What a caller may rely on after each authentication call. */
module AuthCalls {
  import opened Common
  import opened AuthModel
  import opened AuthFamilies
  import opened AuthLockout

  /** What holds in every state of the store. */
  ghost predicate AuthSound(s: AuthState) {
    Sound(s.tokens) && UsersExist(s) && LocksSound(s)
  }

  lemma StepKeepsAll(s: AuthState, e: Event)
    requires AuthSound(s) && Fresh(s, e)
    ensures AuthSound(Apply(s, e)) && Evolves(s.tokens, Apply(s, e).tokens)
  {
    AuthFamilies.StepKeeps(s, e);
    StepKeepsUsers(s, e);
    StepKeepsLocks(s, e);
  }

  /** How a step moves the counter and the lock of every account. */
  ghost predicate CountersMove(s: AuthState, e: Event, t: AuthState) {
    |t.users| == |s.users|
    && forall u :: 0 <= u < |s.users| ==> CounterMoves(s.users[u], t.users[u], WrongPassword(s, e, u), Clears(s, e, u), e.now)
  }

  lemma StepMovesCounters(s: AuthState, e: Event)
    ensures CountersMove(s, e, Apply(s, e))
  {
    CounterStepKeepsUsers(s, e);
    forall u | 0 <= u < |s.users|
      ensures CounterMoves(s.users[u], Apply(s, e).users[u], WrongPassword(s, e, u), Clears(s, e, u), e.now)
    {
      CounterStep(s, e, u);
    }
  }

  /**
   * A login succeeds exactly when it names an unlocked account, with its password, that passes every check; it
   * then hands out the one live token of a new family. Otherwise it hands out nothing.
   */
  lemma LoginMeans(s: AuthState, e: Event)
    requires e.LoginCall?
    ensures var (t, outcome) := Login(s, e.slug, e.email, e.password, e.now, e.drawn);
            && (outcome.Ok? <==> s.signingKey && Target(s, e).Some? && Clears(s, e, Target(s, e).value))
            && (outcome.Ok? ==> Target(s, e) == Some(outcome.value) && s.users[outcome.value].passwordHash == Some(e.password))
            && (outcome.Ok? ==>
                  var u := s.users[outcome.value];
                  && u.email == e.email && !u.deleted && u.status != Inactive
                  && u.tenant == if e.slug.GetOr("") == "" then None else Some(s.orgs[e.slug.value].id))
            && (outcome.Ok? ==> Live(t.tokens, e.drawn.hash) && t.tokens[e.drawn.hash].userId == outcome.value
                                && t.tokens[e.drawn.hash].familyId == e.drawn.family
                                && t.tokens[e.drawn.hash].expiresAt == e.now + 604_800_000)
            && (forall h :: h in s.tokens && h != e.drawn.hash ==> h in t.tokens && t.tokens[h] == s.tokens[h])
            && (outcome.Err? ==> t.tokens == s.tokens)
  {
    LoginTokens(s, e);
    var target := Target(s, e);
    if target.Some? {
      assert s.users[target.value].tenant.Some? <==> e.slug.Some? && e.slug.value != "";
    }
  }

  /**
   * Why a login is refused, the first reason counting: an unknown organization; no such user, or one without a
   * password; a running lock; a suspended organization; the wrong password; an email waiting for verification; and
   * last, no key to sign with.
   */
  lemma LoginRefusals(s: AuthState, e: Event)
    requires e.LoginCall?
    ensures var outcome := Login(s, e.slug, e.email, e.password, e.now, e.drawn).1;
            var scoped := e.slug.Some? && e.slug.value != "";
            if scoped && e.slug.value !in s.orgs then outcome == Err(InvalidTenantSlug)
            else if Target(s, e).None? || s.users[Target(s, e).value].passwordHash.None? then
              outcome == Err(InvalidCredentials)
            else
              var u := s.users[Target(s, e).value];
              if u.lockedUntil.Some? && e.now < u.lockedUntil.value then outcome == Err(AccountLocked)
              else if scoped && s.orgs[e.slug.value].suspended then outcome == Err(OrganizationSuspended)
              else if u.passwordHash != Some(e.password) then outcome == Err(InvalidCredentials)
              else if scoped && !u.emailVerified && Target(s, e).value in s.pendingVerification then
                outcome == Err(EmailUnverified)
              else outcome == if s.signingKey then Ok(Target(s, e).value) else Err(SigningKeyMissing)
  {
  }

  /**
   * What a login leaves: the invariants and an evolution of the tokens if the draws were new; counters moved as the
   * lockout rules say; on success an account with that password, no failures and no lock, and a live token for it;
   * on failure the same tokens.
   */
  ghost predicate LoginHolds(s: AuthState, e: Event, t: AuthState, outcome: Outcome)
    requires e.LoginCall?
  {
    && (Fresh(s, e) ==> AuthSound(t) && Evolves(s.tokens, t.tokens)) && CountersMove(s, e, t)
    && (outcome.Ok? ==>
          && outcome.value < |t.users| && t.users[outcome.value].passwordHash == Some(e.password)
          && t.users[outcome.value].failedLoginCount == 0 && t.users[outcome.value].lockedUntil.None?
          && Live(t.tokens, e.drawn.hash) && t.tokens[e.drawn.hash].userId == outcome.value
          && t.tokens[e.drawn.hash].expiresAt == e.now + 604_800_000)
    && (outcome.Err? ==> t.tokens == s.tokens)
  }

  lemma LoginKeeps(s: AuthState, e: Event)
    requires AuthSound(s) && e.LoginCall?
    ensures var (t, outcome) := Login(s, e.slug, e.email, e.password, e.now, e.drawn); LoginHolds(s, e, t, outcome)
  {
    StepMovesCounters(s, e);
    LoginMeans(s, e);
    if Fresh(s, e) {
      StepKeepsAll(s, e);
    }
  }

  /** Logging out a live token revokes it now, kills its family and touches no other; else nothing changes. */
  lemma LogoutMeans(s: AuthState, hash: Option<TokenHash>, now: int)
    requires Sound(s.tokens)
    ensures var t := Logout(s, hash, now);
            && (hash.Some? && Live(s.tokens, hash.value) ==>
                  && !FamilyAlive(t.tokens, s.tokens[hash.value].familyId)
                  && t.tokens[hash.value] == s.tokens[hash.value].(revokedAt := Some(now))
                  && forall h :: h in s.tokens && h != hash.value ==> h in t.tokens && t.tokens[h] == s.tokens[h])
            && (hash.None? || !Live(s.tokens, hash.value) ==> t == s)
  {
    if hash.Some? && Live(s.tokens, hash.value) {
      FamilyIsKilled(s, LogoutCall(hash, now), hash.value);
    }
  }

  /** An open invitation whose user is still the invited one: same tenant and email, invited, with the role. */
  predicate CanAccept(s: AuthState, hash: TokenHash, now: int) {
    && hash in s.invitations && !s.invitations[hash].accepted && now <= s.invitations[hash].expiresAt
    && s.invitations[hash].userId < |s.users|
    && var inv, u := s.invitations[hash], s.users[s.invitations[hash].userId];
       u.tenant == Some(inv.tenant) && u.email == inv.email && u.status == Invited && !u.deleted && inv.roleId in u.roles
  }

  /**
   * An invitation that can be accepted makes its user active with the given password, and can never be accepted
   * again, even when no token could be signed for the user.
   */
  lemma AcceptMeans(s: AuthState, hash: TokenHash, password: string, now: int, drawn: Drawn)
    ensures var (t, outcome) := AcceptInvitation(s, hash, password, now, drawn);
            && (outcome.Ok? <==> s.signingKey && CanAccept(s, hash, now))
            && (!CanAccept(s, hash, now) ==> t == s && outcome == Err(InvalidInvitation))
            && (CanAccept(s, hash, now) && outcome.Err? ==> outcome == Err(SigningKeyMissing))
            && (CanAccept(s, hash, now) ==>
                  var id := s.invitations[hash].userId;
                  && |t.users| == |s.users|
                  && t.users[id] == s.users[id].(passwordHash := Some(password), status := Active, emailVerified := true)
                  && (forall u :: 0 <= u < |s.users| && u != id ==> t.users[u] == s.users[u])
                  && t.invitations == s.invitations[hash := s.invitations[hash].(accepted := true)]
                  && (forall at :: !CanAccept(t, hash, at))
                  && (outcome.Ok? ==> outcome.value == id && Live(t.tokens, drawn.hash) && t.tokens[drawn.hash].userId == id
                                      && t.tokens[drawn.hash].expiresAt == now + 604_800_000))
  {
  }

  predicate CanReset(s: AuthState, hash: TokenHash, now: int) {
    hash in s.resets && !s.resets[hash].used && now <= s.resets[hash].expiresAt && s.resets[hash].userId < |s.users|
  }

  /**
   * A reset link works once: it sets the password and lifts the lock of its user, and makes an invited one active.
   * Every refresh token, live ones included, stays as it was.
   */
  lemma ResetMeans(s: AuthState, hash: TokenHash, password: string, now: int)
    ensures var (t, outcome) := ResetPassword(s, hash, password, now);
            && (outcome.Ok? <==> CanReset(s, hash, now)) && t.tokens == s.tokens
            && (outcome.Err? ==> t == s && outcome == Err(InvalidResetToken))
            && (outcome.Ok? ==>
                  && outcome.value == s.resets[hash].userId && |t.users| == |s.users|
                  && t.users[outcome.value] ==
                       s.users[outcome.value].(passwordHash := Some(password), failedLoginCount := 0, lockedUntil := None,
                                               status := t.users[outcome.value].status)
                  && t.users[outcome.value].status ==
                       (if s.users[outcome.value].status == Invited then Active else s.users[outcome.value].status)
                  && (forall u :: 0 <= u < |s.users| && u != outcome.value ==> t.users[u] == s.users[u])
                  && (forall at :: !CanReset(t, hash, at)))
  {
  }

  lemma AcceptKeeps(s: AuthState, e: Event)
    requires AuthSound(s) && e.AcceptCall?
    ensures var t := Apply(s, e);
            && (Fresh(s, e) ==> AuthSound(t) && Evolves(s.tokens, t.tokens)) && CountersMove(s, e, t)
  {
    StepMovesCounters(s, e);
    AcceptMeans(s, e.invitation, e.password, e.now, e.drawn);
    if Fresh(s, e) {
      StepKeepsAll(s, e);
    }
  }

  lemma RefreshKeepsAll(s: AuthState, hash: TokenHash, now: int, drawn: Drawn)
    requires AuthSound(s)
    ensures var (t, outcome) := Refresh(s, hash, now, drawn);
            && (outcome.Ok? <==> s.signingKey && Live(s.tokens, hash) && now <= s.tokens[hash].expiresAt)
            && (drawn.hash !in s.tokens ==> AuthSound(t) && Evolves(s.tokens, t.tokens))
            && (outcome.Ok? && drawn.hash !in s.tokens ==>
                  && Live(t.tokens, drawn.hash) && t.tokens[drawn.hash].familyId == s.tokens[hash].familyId
                  && t.tokens[drawn.hash].expiresAt == now + 604_800_000
                  && forall h :: Live(t.tokens, h) && h != drawn.hash ==> t.tokens[h].familyId != s.tokens[hash].familyId)
  {
    if drawn.hash !in s.tokens {
      StepKeepsAll(s, RefreshCall(hash, now, drawn));
      RefreshHandsOver(s, hash, now, drawn);
    }
  }
}
