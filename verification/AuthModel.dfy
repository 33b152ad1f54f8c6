/**
 * The authentication state and what each service call does to it, as functions.
 * A token, an invitation and a reset link are known by the hash of their secret; a password by its hash.
 * Hashing is injective and randomly drawn identifiers are fresh (`Fresh`).
 */
module AuthModel {
  import opened Common

  type UserId = nat
  type TokenHash = nat
  type FamilyId = nat
  type Tokens = map<TokenHash, RefreshToken>

  const MAX_FAILED_LOGINS := 5
  const LOCKOUT_MS := 15 * 60 * 1000
  const REFRESH_TOKEN_TTL_MS := 7 * 24 * 60 * 60 * 1000

  datatype UserStatus = Active | Invited | Inactive

  datatype User = User(
    tenant: Option<nat>,
    email: string,
    passwordHash: Option<string>,
    status: UserStatus,
    deleted: bool,
    roles: set<nat>,
    emailVerified: bool,
    failedLoginCount: nat,
    lockedUntil: Option<int>)

  datatype Organization = Organization(id: nat, suspended: bool)

  datatype RefreshToken = RefreshToken(
    userId: UserId, familyId: FamilyId, expiresAt: int, revokedAt: Option<int>)

  datatype Invitation = Invitation(
    tenant: nat, userId: UserId, email: string, roleId: nat, expiresAt: int, accepted: bool)

  datatype ResetToken = ResetToken(userId: UserId, expiresAt: int, used: bool)

  datatype AuthError =
    | InvalidTenantSlug | InvalidCredentials | AccountLocked | OrganizationSuspended | EmailUnverified
    | SigningKeyMissing | InvalidRefreshToken | InvalidInvitation | InvalidResetToken

  /** `users` is the user table in row order; a user's id is the position of the row. */
  datatype AuthState = AuthState(
    signingKey: bool,
    orgs: map<string, Organization>,
    users: seq<User>,
    pendingVerification: set<UserId>,
    tokens: Tokens,
    invitations: map<TokenHash, Invitation>,
    resets: map<TokenHash, ResetToken>)

  type Outcome = Result<UserId, AuthError>

  // ----- Queries and single-table updates (auth.repository) -----

  function FindUserByEmail(users: seq<User>, email: string, tenant: Option<nat>): (r: Option<UserId>)
    ensures r.Some? ==>
              && r.value < |users| && users[r.value].email == email && users[r.value].tenant == tenant
              && !users[r.value].deleted && users[r.value].status != Inactive
  {
    if |users| == 0 then None
    else
      var earlier := FindUserByEmail(users[..|users| - 1], email, tenant);
      if earlier.Some? then earlier
      else if IsLoginUser(users[|users| - 1], email, tenant) then Some(|users| - 1)
      else None
  }

  /** It is the first such row, and there is none exactly when no row is found. */
  lemma {:induction false} FoundIsFirst(users: seq<User>, email: string, tenant: Option<nat>)
    ensures var r := FindUserByEmail(users, email, tenant);
            forall i :: 0 <= i < (if r.Some? then r.value else |users|) ==>
              !(users[i].email == email && users[i].tenant == tenant && !users[i].deleted && users[i].status != Inactive)
    decreases |users|
  {
    if |users| > 0 {
      var front := users[..|users| - 1];
      FoundIsFirst(front, email, tenant);
      assert forall i :: 0 <= i < |front| ==> front[i] == users[i];
    }
  }

  predicate IsLoginUser(u: User, email: string, tenant: Option<nat>) {
    u.email == email && u.tenant == tenant && !u.deleted && (u.status == Active || u.status == Invited)
  }

  function RevokeToken(tokens: Tokens, hash: TokenHash, now: int): Tokens {
    map h | h in tokens ::
      if h == hash && tokens[h].revokedAt.None? then tokens[h].(revokedAt := Some(now)) else tokens[h]
  }

  function RevokeFamily(tokens: Tokens, user: UserId, family: FamilyId, now: int)
    : Tokens
  {
    map h | h in tokens ::
      if tokens[h].userId == user && tokens[h].familyId == family && tokens[h].revokedAt.None?
      then tokens[h].(revokedAt := Some(now)) else tokens[h]
  }

  function NewToken(user: UserId, family: FamilyId, now: int): RefreshToken {
    RefreshToken(user, family, now + REFRESH_TOKEN_TTL_MS, None)
  }

  // ----- Service calls (auth.service) -----

  /** The identifiers a call draws at random: the new token's hash and, for a login, a new family. */
  datatype Drawn = Drawn(hash: TokenHash, family: FamilyId)

  function Login(s: AuthState, slug: Option<string>, email: string, password: string, now: int, drawn: Drawn)
    : (AuthState, Outcome)
  {
    var scoped := slug.Some? && slug.value != "";
    if scoped && slug.value !in s.orgs then (s, Err(InvalidTenantSlug))
    else
      var tenant := if scoped then Some(s.orgs[slug.value].id) else None;
      var found := FindUserByEmail(s.users, email, tenant);
      if found.None? || s.users[found.value].passwordHash.None? then (s, Err(InvalidCredentials))
      else
        var id := found.value;
        var user := s.users[id];
        if user.lockedUntil.Some? && user.lockedUntil.value > now then (s, Err(AccountLocked))
        else if scoped && s.orgs[slug.value].suspended then (s, Err(OrganizationSuspended))
        else if user.passwordHash.value != password then
          (s.(users := s.users[id := AfterWrongPassword(user, now)]), Err(InvalidCredentials))
        else if tenant.Some? && !user.emailVerified && id in s.pendingVerification then (s, Err(EmailUnverified))
        else
          var cleared := s.(users := s.users[id := user.(failedLoginCount := 0, lockedUntil := None)]);
          if !s.signingKey then (cleared, Err(SigningKeyMissing))
          else (cleared.(tokens := s.tokens[drawn.hash := NewToken(id, drawn.family, now)]), Ok(id))
  }

  function AfterWrongPassword(user: User, now: int): User {
    var failed := user.failedLoginCount + 1;
    user.(failedLoginCount := failed,
          lockedUntil := if failed >= MAX_FAILED_LOGINS then Some(now + LOCKOUT_MS) else None)
  }

  function Refresh(s: AuthState, hash: TokenHash, now: int, drawn: Drawn): (AuthState, Outcome) {
    if hash !in s.tokens then (s, Err(InvalidRefreshToken))
    else
      var existing := s.tokens[hash];
      if existing.revokedAt.Some? then
        (s.(tokens := RevokeFamily(s.tokens, existing.userId, existing.familyId, now)), Err(InvalidRefreshToken))
      else if existing.expiresAt < now then (s, Err(InvalidRefreshToken))
      else
        var rotated := s.(tokens := RevokeToken(s.tokens, hash, now));
        if existing.userId >= |s.users| then (rotated, Err(InvalidRefreshToken))
        else if !s.signingKey then (rotated, Err(SigningKeyMissing))
        else
          (rotated.(tokens := rotated.tokens[drawn.hash := NewToken(existing.userId, existing.familyId, now)]),
           Ok(existing.userId))
  }

  function Logout(s: AuthState, hash: Option<TokenHash>, now: int): AuthState {
    if hash.None? then s else s.(tokens := RevokeToken(s.tokens, hash.value, now))
  }

  predicate IsInvitedUser(u: User, inv: Invitation) {
    u.tenant == Some(inv.tenant) && u.email == inv.email && u.status == Invited && !u.deleted && inv.roleId in u.roles
  }

  function AcceptInvitation(s: AuthState, hash: TokenHash, password: string, now: int, drawn: Drawn)
    : (AuthState, Outcome)
  {
    if hash !in s.invitations || s.invitations[hash].accepted || s.invitations[hash].expiresAt < now then
      (s, Err(InvalidInvitation))
    else
      var inv := s.invitations[hash];
      if inv.userId >= |s.users| || !IsInvitedUser(s.users[inv.userId], inv) then (s, Err(InvalidInvitation))
      else
        var user := s.users[inv.userId].(passwordHash := Some(password), status := Active, emailVerified := true);
        var accepted := s.(users := s.users[inv.userId := user],
                           invitations := s.invitations[hash := inv.(accepted := true)]);
        if !s.signingKey then (accepted, Err(SigningKeyMissing))
        else
          (accepted.(tokens := s.tokens[drawn.hash := NewToken(inv.userId, drawn.family, now)]), Ok(inv.userId))
  }

  function ResetPassword(s: AuthState, hash: TokenHash, password: string, now: int): (AuthState, Outcome) {
    if hash !in s.resets || s.resets[hash].used || s.resets[hash].expiresAt < now
       || s.resets[hash].userId >= |s.users| then
      (s, Err(InvalidResetToken))
    else
      var id := s.resets[hash].userId;
      var user := s.users[id];
      (s.(users := s.users[id := user.(passwordHash := Some(password), failedLoginCount := 0, lockedUntil := None,
                                       status := if user.status == Invited then Active else user.status)],
          resets := s.resets[hash := s.resets[hash].(used := true)]),
       Ok(id))
  }

  // ----- Runs -----

  datatype Event =
    | LoginCall(slug: Option<string>, email: string, password: string, now: int, drawn: Drawn)
    | AcceptCall(invitation: TokenHash, password: string, now: int, drawn: Drawn)
    | RefreshCall(token: TokenHash, now: int, drawn: Drawn)
    | LogoutCall(presented: Option<TokenHash>, now: int)
    | ResetCall(link: TokenHash, password: string, now: int)

  function Apply(s: AuthState, e: Event): AuthState {
    match e
    case LoginCall(slug, email, password, now, drawn) => Login(s, slug, email, password, now, drawn).0
    case AcceptCall(invitation, password, now, drawn) => AcceptInvitation(s, invitation, password, now, drawn).0
    case RefreshCall(token, now, drawn) => Refresh(s, token, now, drawn).0
    case LogoutCall(presented, now) => Logout(s, presented, now)
    case ResetCall(link, password, now) => ResetPassword(s, link, password, now).0
  }

  function Run(s: AuthState, es: seq<Event>): AuthState {
    if |es| == 0 then s else Apply(Run(s, es[..|es| - 1]), es[|es| - 1])
  }

  /** What the call drew at random has not been drawn before. */
  ghost predicate Fresh(s: AuthState, e: Event) {
    match e
    case LoginCall(_, _, _, _, drawn) => drawn.hash !in s.tokens && !FamilyKnown(s.tokens, drawn.family)
    case AcceptCall(_, _, _, drawn) => drawn.hash !in s.tokens && !FamilyKnown(s.tokens, drawn.family)
    case RefreshCall(_, _, drawn) => drawn.hash !in s.tokens
    case _ => true
  }

  ghost predicate FamilyKnown(tokens: Tokens, f: FamilyId) {
    exists h :: h in tokens && tokens[h].familyId == f
  }

  ghost predicate FreshRun(s: AuthState, es: seq<Event>) {
    forall i :: 0 <= i < |es| ==> Fresh(Run(s, es[..i]), es[i])
  }

  lemma RunStep(s: AuthState, es: seq<Event>, i: nat)
    requires i < |es|
    ensures Run(s, es[..i + 1]) == Apply(Run(s, es[..i]), es[i])
  {
    assert es[..i + 1][..i] == es[..i];
  }
}
