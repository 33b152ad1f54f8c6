/** The service as the source writes it: rows of an in-memory store updated step by step. */
module AuthService {
  import opened Common
  import M = AuthModel
  import opened AuthFamilies
  import opened AuthCalls

  class Store {
    const signingKey: bool
    var orgs: map<string, M.Organization>
    var users: seq<M.User>
    var pendingVerification: set<M.UserId>
    var tokens: M.Tokens
    var invitations: map<M.TokenHash, M.Invitation>
    var resets: map<M.TokenHash, M.ResetToken>

    function State(): M.AuthState
      reads this
    {
      M.AuthState(signingKey, orgs, users, pendingVerification, tokens, invitations, resets)
    }

    /** One user and one live token per family, every token with its user, locks in step with counters. */
    ghost predicate Valid()
      reads this
    {
      AuthSound(State())
    }

    constructor (initial: M.AuthState)
      requires AuthSound(initial)
      ensures Valid() && State() == initial
    {
      signingKey := initial.signingKey;
      orgs, users, pendingVerification := initial.orgs, initial.users, initial.pendingVerification;
      tokens, invitations, resets := initial.tokens, initial.invitations, initial.resets;
    }

    // ----- auth.repository -----

    method UpdateLoginFailure(id: M.UserId, failedLoginCount: nat, lockedUntil: Option<int>)
      requires id < |users|
      modifies this`users
      ensures users == old(users)[id :=
                old(users)[id].(failedLoginCount := failedLoginCount, lockedUntil := lockedUntil)]
    {
      users := users[id := users[id].(failedLoginCount := failedLoginCount, lockedUntil := lockedUntil)];
    }

    method CreateRefreshToken(hash: M.TokenHash, row: M.RefreshToken)
      modifies this`tokens
      ensures tokens == old(tokens)[hash := row]
    {
      tokens := tokens[hash := row];
    }

    /** An update of the rows matching a unique key: at most one row changes, and only if it is unrevoked. */
    method RevokeRefreshToken(hash: M.TokenHash, revokedAt: int)
      modifies this`tokens
      ensures tokens == M.RevokeToken(old(tokens), hash, revokedAt)
    {
      if hash in tokens && tokens[hash].revokedAt.None? {
        tokens := tokens[hash := tokens[hash].(revokedAt := Some(revokedAt))];
      }
    }

    /** An update of every unrevoked row of one user and family. */
    method RevokeRefreshTokenFamily(user: M.UserId, family: M.FamilyId, revokedAt: int)
      modifies this`tokens
      ensures tokens == M.RevokeFamily(old(tokens), user, family, revokedAt)
    {
      ghost var before := tokens;
      var pending := tokens.Keys;
      while pending != {}
        invariant pending <= tokens.Keys == before.Keys
        invariant forall h :: h in before ==>
          tokens[h] == if h in pending then before[h] else M.RevokeFamily(before, user, family, revokedAt)[h]
        decreases |pending|
      {
        var h :| h in pending;
        var row := tokens[h];
        if row.userId == user && row.familyId == family && row.revokedAt.None? {
          tokens := tokens[h := row.(revokedAt := Some(revokedAt))];
        }
        pending := pending - {h};
      }
    }

    // ----- auth.service -----

    /** The checks and writes of a login, in order. */
    method LoginSteps(slug: Option<string>, email: string, password: string, now: int, drawn: M.Drawn)
      returns (outcome: M.Outcome)
      modifies this`users, this`tokens
      ensures (State(), outcome) == M.Login(old(State()), slug, email, password, now, drawn)
    {
      var tenant: Option<nat> := None;
      if slug.Some? && slug.value != "" {
        if slug.value !in orgs {
          return Err(M.InvalidTenantSlug);
        }
        tenant := Some(orgs[slug.value].id);
      }
      var found := M.FindUserByEmail(users, email, tenant);
      if found.None? || users[found.value].passwordHash.None? {
        return Err(M.InvalidCredentials);
      }
      var id := found.value;
      var user := users[id];
      if user.lockedUntil.Some? && user.lockedUntil.value > now {
        return Err(M.AccountLocked);
      }
      if slug.Some? && slug.value != "" && orgs[slug.value].suspended {
        return Err(M.OrganizationSuspended);
      }
      if user.passwordHash.value != password {
        var failedCount := user.failedLoginCount + 1;
        var lockedUntil := if failedCount >= M.MAX_FAILED_LOGINS then Some(now + M.LOCKOUT_MS) else None;
        UpdateLoginFailure(id, failedCount, lockedUntil);
        return Err(M.InvalidCredentials);
      }
      if tenant.Some? && !user.emailVerified && id in pendingVerification {
        return Err(M.EmailUnverified);
      }
      UpdateLoginFailure(id, 0, None);
      if !signingKey {
        return Err(M.SigningKeyMissing);
      }
      CreateRefreshToken(drawn.hash, M.NewToken(id, drawn.family, now));
      outcome := Ok(id);
    }

    method Login(slug: Option<string>, email: string, password: string, now: int, drawn: M.Drawn)
      returns (outcome: M.Outcome)
      requires Valid()
      modifies this`users, this`tokens
      ensures (State(), outcome) == M.Login(old(State()), slug, email, password, now, drawn)
      ensures LoginHolds(old(State()), M.LoginCall(slug, email, password, now, drawn), State(), outcome)
    {
      LoginKeeps(State(), M.LoginCall(slug, email, password, now, drawn));
      outcome := LoginSteps(slug, email, password, now, drawn);
    }

    method Refresh(hash: M.TokenHash, now: int, drawn: M.Drawn) returns (outcome: M.Outcome)
      requires Valid()
      modifies this`tokens
      ensures (State(), outcome) == M.Refresh(old(State()), hash, now, drawn)
      ensures drawn.hash !in old(tokens) ==> Valid() && Evolves(old(tokens), tokens)
      ensures outcome.Ok? <==> signingKey && Live(old(tokens), hash) && now <= old(tokens)[hash].expiresAt
      ensures outcome.Ok? && drawn.hash !in old(tokens) ==>
                && Live(tokens, drawn.hash) && tokens[drawn.hash].familyId == old(tokens)[hash].familyId
                && tokens[drawn.hash].expiresAt == now + 604_800_000
                && forall h :: Live(tokens, h) && h != drawn.hash ==> tokens[h].familyId != old(tokens)[hash].familyId
    {
      RefreshKeepsAll(State(), hash, now, drawn);
      if hash !in tokens {
        return Err(M.InvalidRefreshToken);
      }
      var existing := tokens[hash];
      if existing.revokedAt.Some? {
        RevokeRefreshTokenFamily(existing.userId, existing.familyId, now);
        return Err(M.InvalidRefreshToken);
      }
      if existing.expiresAt < now {
        return Err(M.InvalidRefreshToken);
      }
      RevokeRefreshToken(hash, now);
      if existing.userId >= |users| {
        return Err(M.InvalidRefreshToken);
      }
      if !signingKey {
        return Err(M.SigningKeyMissing);
      }
      CreateRefreshToken(drawn.hash, M.NewToken(existing.userId, existing.familyId, now));
      outcome := Ok(existing.userId);
    }

    method Logout(hash: Option<M.TokenHash>, now: int)
      requires Valid()
      modifies this`tokens
      ensures State() == M.Logout(old(State()), hash, now)
      ensures Valid() && Evolves(old(tokens), tokens)
      ensures hash.Some? && Live(old(tokens), hash.value) ==>
                && !FamilyAlive(tokens, old(tokens)[hash.value].familyId)
                && forall h :: h in old(tokens) && h != hash.value ==> h in tokens && tokens[h] == old(tokens)[h]
      ensures hash.None? || !Live(old(tokens), hash.value) ==> tokens == old(tokens)
    {
      StepKeepsAll(State(), M.LogoutCall(hash, now));
      LogoutMeans(State(), hash, now);
      if hash.None? {
        return;
      }
      RevokeRefreshToken(hash.value, now);
    }

    method AcceptInvitation(hash: M.TokenHash, password: string, now: int, drawn: M.Drawn)
      returns (outcome: M.Outcome)
      requires Valid()
      modifies this`users, this`invitations, this`tokens
      ensures (State(), outcome) == M.AcceptInvitation(old(State()), hash, password, now, drawn)
      ensures M.Fresh(old(State()), M.AcceptCall(hash, password, now, drawn)) ==> Valid() && Evolves(old(tokens), tokens)
      ensures CountersMove(old(State()), M.AcceptCall(hash, password, now, drawn), State())
      ensures outcome.Ok? <==> signingKey && CanAccept(old(State()), hash, now)
      ensures CanAccept(old(State()), hash, now) ==>
                && old(invitations)[hash].userId < |users|
                && users[old(invitations)[hash].userId].status == M.Active
                && users[old(invitations)[hash].userId].passwordHash == Some(password)
                && forall at :: !CanAccept(State(), hash, at)
      ensures outcome.Ok? ==> Live(tokens, drawn.hash) && tokens[drawn.hash].userId == outcome.value
                              && tokens[drawn.hash].expiresAt == now + 604_800_000
    {
      AcceptKeeps(State(), M.AcceptCall(hash, password, now, drawn));
      if hash !in invitations || invitations[hash].accepted || invitations[hash].expiresAt < now {
        return Err(M.InvalidInvitation);
      }
      var inv := invitations[hash];
      if inv.userId >= |users| || !M.IsInvitedUser(users[inv.userId], inv) {
        return Err(M.InvalidInvitation);
      }
      users := users[inv.userId :=
        users[inv.userId].(passwordHash := Some(password), status := M.Active, emailVerified := true)];
      invitations := invitations[hash := inv.(accepted := true)];
      if !signingKey {
        return Err(M.SigningKeyMissing);
      }
      CreateRefreshToken(drawn.hash, M.NewToken(inv.userId, drawn.family, now));
      outcome := Ok(inv.userId);
    }

    /** Completing a reset lifts the lock, uses up the link and leaves every refresh token as it was. */
    method ResetPassword(hash: M.TokenHash, password: string, now: int) returns (outcome: M.Outcome)
      requires Valid()
      modifies this`users, this`resets
      ensures (State(), outcome) == M.ResetPassword(old(State()), hash, password, now)
      ensures Valid() && CountersMove(old(State()), M.ResetCall(hash, password, now), State())
      ensures outcome.Ok? <==> CanReset(old(State()), hash, now)
      ensures outcome.Ok? ==>
                && outcome.value < |users| && users[outcome.value].passwordHash == Some(password)
                && users[outcome.value].lockedUntil.None? && forall at :: !CanReset(State(), hash, at)
      ensures outcome.Err? ==> State() == old(State())
    {
      StepKeepsAll(State(), M.ResetCall(hash, password, now));
      StepMovesCounters(State(), M.ResetCall(hash, password, now));
      ResetMeans(State(), hash, password, now);
      if hash !in resets || resets[hash].used || resets[hash].expiresAt < now || resets[hash].userId >= |users| {
        return Err(M.InvalidResetToken);
      }
      var id := resets[hash].userId;
      var status := if users[id].status == M.Invited then M.Active else users[id].status;
      users := users[id := users[id].(passwordHash := Some(password), failedLoginCount := 0,
                                      lockedUntil := None, status := status)];
      resets := resets[hash := resets[hash].(used := true)];
      outcome := Ok(id);
    }

    // ----- The process -----

    method Handle(e: M.Event)
      requires Valid() && M.Fresh(State(), e)
      modifies this
      ensures State() == M.Apply(old(State()), e)
      ensures Valid() && Evolves(old(tokens), tokens) && CountersMove(old(State()), e, State())
    {
      StepMovesCounters(State(), e);
      match e
      case LoginCall(slug, email, password, now, drawn) => var _ := Login(slug, email, password, now, drawn);
      case AcceptCall(invitation, password, now, drawn) => var _ := AcceptInvitation(invitation, password, now, drawn);
      case RefreshCall(token, now, drawn) => var _ := Refresh(token, now, drawn);
      case LogoutCall(presented, now) => Logout(presented, now);
      case ResetCall(link, password, now) =>
        var _ := ResetPassword(link, password, now);
        SameEvolves(tokens);
    }

    /** One request after another: the store goes through exactly the states of the run, and stays valid. */
    method Serve(es: seq<M.Event>)
      requires Valid() && M.FreshRun(State(), es)
      modifies this
      ensures State() == M.Run(old(State()), es)
      ensures Valid() && Evolves(old(tokens), tokens)
    {
      ghost var start := State();
      SameEvolves(tokens);
      for i := 0 to |es|
        invariant State() == M.Run(start, es[..i]) && Valid() && Evolves(start.tokens, tokens)
      {
        ghost var before := tokens;
        M.RunStep(start, es, i);
        assert M.Fresh(M.Run(start, es[..i]), es[i]);
        Handle(es[i]);
        EvolvesTransitively(start.tokens, before, tokens);
      }
      assert es[..|es|] == es;
    }
  }
}
