/** What every run keeps about refresh-token families. */
module AuthFamilies {
  import opened Common
  import opened AuthModel

  predicate Live(tokens: Tokens, h: TokenHash) {
    h in tokens && tokens[h].revokedAt.None?
  }

  ghost predicate FamilyAlive(tokens: Tokens, f: FamilyId) {
    exists h :: Live(tokens, h) && tokens[h].familyId == f
  }

  /** One user per family, at most one unrevoked token per family. */
  ghost predicate Sound(tokens: Tokens) {
    && (forall h, k :: h in tokens && k in tokens && tokens[h].familyId == tokens[k].familyId ==>
          tokens[h].userId == tokens[k].userId)
    && (forall h, k :: Live(tokens, h) && Live(tokens, k) && tokens[h].familyId == tokens[k].familyId ==> h == k)
  }

  /** Rows are never deleted or rewritten; the only change is one write of `revokedAt`. */
  ghost predicate RowsKept(a: Tokens, b: Tokens) {
    forall h :: h in a ==>
      && h in b
      && b[h].userId == a[h].userId && b[h].familyId == a[h].familyId && b[h].expiresAt == a[h].expiresAt
      && (a[h].revokedAt.Some? ==> b[h].revokedAt == a[h].revokedAt)
  }

  /** A family that exists and has no unrevoked token keeps exactly its rows: nothing is minted in it. */
  ghost predicate DeadStaysDead(a: Tokens, b: Tokens) {
    forall f :: FamilyKnown(a, f) && !FamilyAlive(a, f) ==> !FamilyAlive(b, f) && NothingMinted(a, b, f)
  }

  ghost predicate NothingMinted(a: Tokens, b: Tokens, f: FamilyId) {
    forall h :: h in b && b[h].familyId == f ==> h in a
  }

  ghost predicate Evolves(a: Tokens, b: Tokens) {
    RowsKept(a, b) && DeadStaysDead(a, b)
  }

  lemma OnlyRevoked(a: Tokens, b: Tokens)
    requires Sound(a) && RowsKept(a, b) && b.Keys == a.Keys
    ensures Sound(b) && Evolves(a, b)
  {
  }

  /** A row minted in a family without a live token: a new family, or one whose live token was just rotated out. */
  lemma Minted(a: Tokens, hash: TokenHash, row: RefreshToken)
    requires Sound(a) && hash !in a && !FamilyAlive(a, row.familyId)
    requires forall h :: h in a && a[h].familyId == row.familyId ==> a[h].userId == row.userId
    ensures Sound(a[hash := row]) && RowsKept(a, a[hash := row])
    ensures forall f :: f != row.familyId && !FamilyAlive(a, f) ==>
              !FamilyAlive(a[hash := row], f) && NothingMinted(a, a[hash := row], f)
  {
  }

  lemma Rotated(a: Tokens, hash: TokenHash, now: int, minted: TokenHash, row: RefreshToken)
    requires Sound(a) && Live(a, hash) && minted !in a
    requires row.userId == a[hash].userId && row.familyId == a[hash].familyId
    ensures var b := RevokeToken(a, hash, now)[minted := row]; Sound(b) && Evolves(a, b)
  {
    var mid := RevokeToken(a, hash, now);
    OnlyRevoked(a, mid);
    forall h: TokenHash | Live(mid, h) ensures mid[h].familyId != row.familyId {
      assert Live(a, h) && h != hash;
    }
    Minted(mid, minted, row);
    var b := mid[minted := row];
    assert RowsKept(a, b);
    forall f | FamilyKnown(a, f) && !FamilyAlive(a, f) ensures !FamilyAlive(b, f) && NothingMinted(a, b, f) {
      assert f != row.familyId;
      assert FamilyKnown(mid, f) by {
        var h :| h in a && a[h].familyId == f;
        assert h in mid && mid[h].familyId == f;
      }
    }
  }

  lemma FamilyStarted(a: Tokens, hash: TokenHash, row: RefreshToken)
    requires Sound(a) && hash !in a && !FamilyKnown(a, row.familyId)
    ensures Sound(a[hash := row]) && Evolves(a, a[hash := row])
  {
  }

  lemma LoginTokens(s: AuthState, e: Event)
    requires e.LoginCall?
    ensures var (t, outcome) := Login(s, e.slug, e.email, e.password, e.now, e.drawn);
            t.tokens == if outcome.Ok? then s.tokens[e.drawn.hash := NewToken(outcome.value, e.drawn.family, e.now)]
                        else s.tokens
  {
  }

  lemma AcceptTokens(s: AuthState, e: Event)
    requires e.AcceptCall?
    ensures var (t, outcome) := AcceptInvitation(s, e.invitation, e.password, e.now, e.drawn);
            t.tokens == if outcome.Ok? then s.tokens[e.drawn.hash := NewToken(outcome.value, e.drawn.family, e.now)]
                        else s.tokens
  {
  }

  lemma RefreshKeeps(s: AuthState, token: TokenHash, now: int, drawn: Drawn)
    requires Sound(s.tokens) && drawn.hash !in s.tokens
    ensures var t := Refresh(s, token, now, drawn).0; Sound(t.tokens) && Evolves(s.tokens, t.tokens)
  {
    var (t, outcome) := Refresh(s, token, now, drawn);
    RefreshTokens(s, token, now, drawn);
    if outcome.Ok? {
      Rotated(s.tokens, token, now, drawn.hash, NewToken(outcome.value, s.tokens[token].familyId, now));
    } else {
      OnlyRevoked(s.tokens, t.tokens);
    }
  }

  lemma RefreshTokens(s: AuthState, token: TokenHash, now: int, drawn: Drawn)
    ensures var (t, outcome) := Refresh(s, token, now, drawn);
            && (outcome.Ok? ==>
                  && Live(s.tokens, token) && outcome.value == s.tokens[token].userId
                  && t.tokens == RevokeToken(s.tokens, token, now)[drawn.hash :=
                                   NewToken(outcome.value, s.tokens[token].familyId, now)])
            && (outcome.Err? ==> RowsKept(s.tokens, t.tokens) && t.tokens.Keys == s.tokens.Keys)
  {
  }

  lemma LoginKeepsTokens(s: AuthState, e: Event)
    requires Sound(s.tokens) && e.LoginCall? && Fresh(s, e)
    ensures Sound(Apply(s, e).tokens) && Evolves(s.tokens, Apply(s, e).tokens)
  {
    LoginTokens(s, e);
    var outcome := Login(s, e.slug, e.email, e.password, e.now, e.drawn).1;
    if outcome.Ok? {
      FamilyStarted(s.tokens, e.drawn.hash, NewToken(outcome.value, e.drawn.family, e.now));
    } else {
      OnlyRevoked(s.tokens, s.tokens);
    }
  }

  lemma AcceptKeepsTokens(s: AuthState, e: Event)
    requires Sound(s.tokens) && e.AcceptCall? && Fresh(s, e)
    ensures Sound(Apply(s, e).tokens) && Evolves(s.tokens, Apply(s, e).tokens)
  {
    AcceptTokens(s, e);
    var outcome := AcceptInvitation(s, e.invitation, e.password, e.now, e.drawn).1;
    if outcome.Ok? {
      FamilyStarted(s.tokens, e.drawn.hash, NewToken(outcome.value, e.drawn.family, e.now));
    } else {
      OnlyRevoked(s.tokens, s.tokens);
    }
  }

  lemma StepKeeps(s: AuthState, e: Event)
    requires Sound(s.tokens) && Fresh(s, e)
    ensures Sound(Apply(s, e).tokens) && Evolves(s.tokens, Apply(s, e).tokens)
  {
    match e
    case LoginCall(_, _, _, _, _) => LoginKeepsTokens(s, e);
    case AcceptCall(_, _, _, _) => AcceptKeepsTokens(s, e);
    case RefreshCall(token, now, drawn) => RefreshKeeps(s, token, now, drawn);
    case LogoutCall(_, _) => OnlyRevoked(s.tokens, Apply(s, e).tokens);
    case ResetCall(_, _, _) => OnlyRevoked(s.tokens, s.tokens);
  }

  lemma SameEvolves(a: Tokens)
    ensures Evolves(a, a)
  {
  }

  lemma EvolvesTransitively(a: Tokens, b: Tokens, c: Tokens)
    requires Evolves(a, b) && Evolves(b, c)
    ensures Evolves(a, c)
  {
  }

  lemma NextKeeps(s: AuthState, es: seq<Event>, i: nat)
    requires i < |es| && FreshRun(s, es) && Sound(Run(s, es[..i]).tokens)
    ensures Sound(Run(s, es[..i + 1]).tokens)
    ensures Evolves(Run(s, es[..i]).tokens, Run(s, es[..i + 1]).tokens)
  {
    RunStep(s, es, i);
    StepKeeps(Run(s, es[..i]), es[i]);
  }

  /** The token table before each event of the run, and after the last. */
  function TokensAlong(s: AuthState, es: seq<Event>): seq<Tokens> {
    seq(|es| + 1, k requires 0 <= k <= |es| => Run(s, es[..k]).tokens)
  }

  lemma {:induction false} EveryRunIsSound(s: AuthState, es: seq<Event>, j: nat)
    requires Sound(s.tokens) && FreshRun(s, es) && j <= |es|
    ensures Sound(Run(s, es[..j]).tokens)
    decreases j
  {
    if j > 0 {
      EveryRunIsSound(s, es, j - 1);
      NextKeeps(s, es, j - 1);
    }
  }

  lemma {:induction false} EvolvesAlong(ts: seq<Tokens>, i: nat, j: nat)
    requires forall k :: 0 < k < |ts| ==> Evolves(ts[k - 1], ts[k])
    requires i <= j < |ts|
    ensures Evolves(ts[i], ts[j])
    decreases j
  {
    if i < j {
      EvolvesAlong(ts, i, j - 1);
      EvolvesTransitively(ts[i], ts[j - 1], ts[j]);
    }
  }

  /**
   * Over every run: one user and at most one unrevoked token per family at every moment, and between any two
   * moments rows are kept, a revocation time never changes, and a family without a live token never gets one.
   */
  lemma EveryRunKeepsFamilies(s: AuthState, es: seq<Event>, i: nat, j: nat)
    requires Sound(s.tokens) && FreshRun(s, es) && i <= j <= |es|
    ensures Sound(Run(s, es[..j]).tokens)
    ensures Evolves(Run(s, es[..i]).tokens, Run(s, es[..j]).tokens)
  {
    EveryRunIsSound(s, es, j);
    var ts := TokensAlong(s, es);
    forall k | 0 < k < |ts| ensures Evolves(ts[k - 1], ts[k]) {
      EveryRunIsSound(s, es, k - 1);
      NextKeeps(s, es, k - 1);
    }
    EvolvesAlong(ts, i, j);
  }

  /** Event `i` of the run presents `hash` and is handed a new token. */
  ghost predicate Exchanges(s: AuthState, es: seq<Event>, i: nat, hash: TokenHash)
    requires i < |es|
  {
    es[i].RefreshCall? && es[i].token == hash && Refresh(Run(s, es[..i]), hash, es[i].now, es[i].drawn).1.Ok?
  }

  /** A refresh token is exchanged at most once in any run. */
  lemma ExchangedAtMostOnce(s: AuthState, es: seq<Event>, i: nat, j: nat, hash: TokenHash)
    requires Sound(s.tokens) && FreshRun(s, es) && i < j < |es|
    requires Exchanges(s, es, i, hash)
    ensures !Exchanges(s, es, j, hash)
  {
    RunStep(s, es, i);
    assert Fresh(Run(s, es[..i]), es[i]);
    var after := Run(s, es[..i + 1]).tokens;
    assert hash in after && after[hash].revokedAt.Some?;
    EveryRunKeepsFamilies(s, es, i + 1, j);
  }

  /** The call presents a revoked token to refresh, or logs out a live one. */
  predicate Kills(tokens: Tokens, e: Event, hash: TokenHash) {
    && hash in tokens
    && ((e.RefreshCall? && e.token == hash && !Live(tokens, hash))
        || (e.LogoutCall? && e.presented == Some(hash) && Live(tokens, hash)))
  }

  lemma FamilyIsKilled(s: AuthState, e: Event, hash: TokenHash)
    requires Sound(s.tokens) && Kills(s.tokens, e, hash)
    ensures var t := Apply(s, e).tokens;
            t.Keys == s.tokens.Keys && !FamilyAlive(t, s.tokens[hash].familyId)
            && FamilyKnown(t, s.tokens[hash].familyId)
  {
  }

  /** After reuse is detected or the live token logged out, no later step of any run mints in that family. */
  lemma KilledFamilyNeverMints(s: AuthState, es: seq<Event>, i: nat, j: nat, hash: TokenHash)
    requires Sound(s.tokens) && FreshRun(s, es) && i < j <= |es|
    requires Kills(Run(s, es[..i]).tokens, es[i], hash)
    ensures var before, after := Run(s, es[..i]).tokens, Run(s, es[..j]).tokens;
            !FamilyAlive(after, before[hash].familyId) && NothingMinted(before, after, before[hash].familyId)
  {
    EveryRunKeepsFamilies(s, es, 0, i);
    RunStep(s, es, i);
    FamilyIsKilled(Run(s, es[..i]), es[i], hash);
    EveryRunKeepsFamilies(s, es, i + 1, j);
  }

  /**
   * When a refresh succeeds, and what it leaves: the new token is the family's one live token, for the same user and
   * for seven days (604800000 ms).
   */
  lemma RefreshHandsOver(s: AuthState, hash: TokenHash, now: int, drawn: Drawn)
    requires Sound(s.tokens) && drawn.hash !in s.tokens
    ensures var (t, outcome) := Refresh(s, hash, now, drawn);
            && (outcome.Ok? <==> s.signingKey && Live(s.tokens, hash) && now <= s.tokens[hash].expiresAt
                                 && s.tokens[hash].userId < |s.users|)
            && (outcome == Err(SigningKeyMissing) <==>
                  !s.signingKey && Live(s.tokens, hash) && now <= s.tokens[hash].expiresAt
                  && s.tokens[hash].userId < |s.users|)
            && (outcome.Ok? || outcome == Err(SigningKeyMissing) || outcome == Err(InvalidRefreshToken))
            && (outcome.Ok? ==>
                  && outcome.value == s.tokens[hash].userId
                  && Live(t.tokens, drawn.hash)
                  && t.tokens[drawn.hash].userId == s.tokens[hash].userId
                  && t.tokens[drawn.hash].familyId == s.tokens[hash].familyId
                  && t.tokens[drawn.hash].expiresAt == now + 604_800_000
                  && forall h :: Live(t.tokens, h) && h != drawn.hash ==>
                       t.tokens[h].familyId != s.tokens[hash].familyId)
  {
  }

  /**
   * Exactly which live tokens a step revokes, and when: the one a good refresh or a logout presents, and the whole
   * family of a revoked one that is presented to refresh.
   */
  lemma RevokedExactly(s: AuthState, e: Event, h: TokenHash)
    requires Sound(s.tokens) && Fresh(s, e) && Live(s.tokens, h)
    ensures var t := Apply(s, e).tokens;
            && h in t && t[h].expiresAt == s.tokens[h].expiresAt
            && (!Live(t, h) <==>
                  || (e.LogoutCall? && e.presented == Some(h))
                  || (e.RefreshCall? && e.token == h && e.now <= s.tokens[h].expiresAt)
                  || (e.RefreshCall? && e.token in s.tokens && !Live(s.tokens, e.token)
                      && s.tokens[e.token].familyId == s.tokens[h].familyId))
            && (!Live(t, h) ==> t[h].revokedAt == Some(e.now))
  {
    match e
    case LoginCall(_, _, _, _, _) => LoginTokens(s, e);
    case AcceptCall(_, _, _, _) => AcceptTokens(s, e);
    case RefreshCall(_, _, _) =>
    case LogoutCall(_, _) =>
    case ResetCall(_, _, _) =>
  }

  // ----- How long a token is good -----

  /** The step hands out a token with this hash. */
  predicate HandsOut(s: AuthState, e: Event, h: TokenHash) {
    match e
    case LoginCall(slug, email, password, now, drawn) =>
      drawn.hash == h && Login(s, slug, email, password, now, drawn).1.Ok?
    case AcceptCall(invitation, password, now, drawn) =>
      drawn.hash == h && AcceptInvitation(s, invitation, password, now, drawn).1.Ok?
    case RefreshCall(token, now, drawn) => drawn.hash == h && Refresh(s, token, now, drawn).1.Ok?
    case _ => false
  }

  lemma HandedOutForAWeek(s: AuthState, e: Event, h: TokenHash)
    requires HandsOut(s, e, h)
    ensures var t := Apply(s, e).tokens; Live(t, h) && t[h].expiresAt == e.now + 604_800_000
    ensures s.signingKey && Apply(s, e).signingKey
  {
    match e
    case LoginCall(_, _, _, _, _) => LoginTokens(s, e);
    case AcceptCall(_, _, _, _) => AcceptTokens(s, e);
    case RefreshCall(token, now, drawn) => RefreshTokens(s, token, now, drawn);
  }

  lemma StepKeepsKey(s: AuthState, e: Event)
    ensures Apply(s, e).signingKey == s.signingKey
  {
  }

  lemma {:induction false} RunKeepsKey(s: AuthState, es: seq<Event>)
    ensures Run(s, es).signingKey == s.signingKey
    decreases |es|
  {
    if |es| > 0 {
      RunKeepsKey(s, es[..|es| - 1]);
      StepKeepsKey(Run(s, es[..|es| - 1]), es[|es| - 1]);
    }
  }

  /**
   * A token handed out at step `i` of a run is exchanged, at any later moment of the run at which it has not been
   * revoked, exactly up to seven days after it was handed out.
   */
  lemma TokenIsGoodForAWeek(
    s: AuthState, es: seq<Event>, i: nat, j: nat, h: TokenHash, later: int, drawn: Drawn)
    requires Sound(s.tokens) && UsersExist(s) && FreshRun(s, es) && i < j <= |es|
    requires HandsOut(Run(s, es[..i]), es[i], h)
    ensures var t := Run(s, es[..j]);
            && h in t.tokens && t.tokens[h].expiresAt == es[i].now + 604_800_000
            && (t.tokens[h].revokedAt.None? ==>
                  (Refresh(t, h, later, drawn).1.Ok? <==> later <= es[i].now + 604_800_000))
  {
    RunStep(s, es, i);
    HandedOutForAWeek(Run(s, es[..i]), es[i], h);
    EveryRunKeepsFamilies(s, es, i + 1, j);
    RunKeepsKey(s, es[..i]);
    RunKeepsKey(s, es[..j]);
    RefreshSucceedsExactly(s, es[..j], h, later, drawn);
  }

  // ----- Every token has its user -----

  ghost predicate UsersExist(s: AuthState) {
    forall h :: h in s.tokens ==> s.tokens[h].userId < |s.users|
  }

  lemma StepKeepsUsers(s: AuthState, e: Event)
    requires UsersExist(s)
    ensures UsersExist(Apply(s, e)) && |Apply(s, e).users| == |s.users|
  {
    match e
    case LoginCall(_, _, _, _, _) => LoginTokens(s, e);
    case AcceptCall(_, _, _, _) => AcceptTokens(s, e);
    case RefreshCall(token, now, drawn) => RefreshKeepsUsers(s, token, now, drawn);
    case LogoutCall(_, _) =>
    case ResetCall(_, _, _) =>
  }

  lemma RefreshKeepsUsers(s: AuthState, token: TokenHash, now: int, drawn: Drawn)
    requires UsersExist(s)
    ensures var t := Refresh(s, token, now, drawn).0; UsersExist(t) && t.users == s.users
  {
  }

  lemma {:induction false} EveryRunKeepsUsers(s: AuthState, es: seq<Event>)
    requires UsersExist(s)
    ensures UsersExist(Run(s, es))
    decreases |es|
  {
    if |es| > 0 {
      EveryRunKeepsUsers(s, es[..|es| - 1]);
      StepKeepsUsers(Run(s, es[..|es| - 1]), es[|es| - 1]);
    }
  }

  /** So in every reachable state a refresh succeeds exactly for a live token that has not expired. */
  lemma RefreshSucceedsExactly(s: AuthState, es: seq<Event>, hash: TokenHash, now: int, drawn: Drawn)
    requires UsersExist(s)
    ensures var t := Run(s, es);
            Refresh(t, hash, now, drawn).1.Ok?
            <==> t.signingKey && Live(t.tokens, hash) && now <= t.tokens[hash].expiresAt
  {
    EveryRunKeepsUsers(s, es);
  }

  lemma NoTokensIsSound(s: AuthState)
    requires s.tokens == map[]
    ensures Sound(s.tokens) && UsersExist(s)
  {
  }
}
