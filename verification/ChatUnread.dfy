/** Unread badges: the count for one user, and the batched map that must agree with it. */
module ChatUnread {
  import opened Common
  import opened ChatModel
  import opened ChatInvariants

  /** A user_roles row whose role is one of the full-access roles or not. */
  datatype RoleRow = RoleRow(tenant: string, userId: string, fullAccess: bool)

  datatype Tables = Tables(conversations: seq<Conversation>, participants: seq<Participant>, roles: seq<RoleRow>)

  /** What the participant query selects. */
  datatype CursorRow = CursorRow(userId: string, lastReadAt: Option<int>, lastMessageAt: Option<int>)

  // ----- Queries -----

  predicate UserHasFullAccess(t: Tables, tenant: string, user: string) {
    exists i :: 0 <= i < |t.roles| && t.roles[i].tenant == tenant && t.roles[i].userId == user && t.roles[i].fullAccess
  }

  predicate CursorWhere(t: Tables, tenant: string, users: set<string>, p: Participant) {
    && p.tenant == tenant && p.userId.Some? && p.userId.value in users
    && p.conversation < |t.conversations|
    && !t.conversations[p.conversation].deleted && t.conversations[p.conversation].lastMessageAt.Some?
  }

  /** The first `n` participants, filtered. */
  function CursorRows(t: Tables, tenant: string, users: set<string>, n: nat): seq<CursorRow>
    requires n <= |t.participants|
  {
    if n == 0 then []
    else
      var p := t.participants[n - 1];
      var rows := CursorRows(t, tenant, users, n - 1);
      if CursorWhere(t, tenant, users, p)
      then rows + [CursorRow(p.userId.value, p.lastReadAt, t.conversations[p.conversation].lastMessageAt)]
      else rows
  }

  predicate IsActiveInbox(c: Conversation, tenant: string) {
    c.tenant == tenant && !c.deleted && c.lastMessageAt.Some? && !IsClosed(c.status)
  }

  function ParticipantsOf(ps: seq<Participant>, c: ConvId, users: set<string>): (r: seq<Participant>)
    ensures forall i :: 0 <= i < |r| ==> r[i] in ps && r[i].conversation == c && r[i].userId.Some? && r[i].userId.value in users
  {
    if |ps| == 0 then []
    else
      var p := ps[|ps| - 1];
      var rows := ParticipantsOf(ps[..|ps| - 1], c, users);
      if p.conversation == c && p.userId.Some? && p.userId.value in users then rows + [p] else rows
  }

  // ----- One user -----

  function UnreadRows(rows: seq<CursorRow>): nat {
    if |rows| == 0 then 0
    else UnreadRows(rows[..|rows| - 1])
         + if IsUnread(rows[|rows| - 1].lastMessageAt, rows[|rows| - 1].lastReadAt) then 1 else 0
  }

  /** No participant row counts as unread. */
  predicate InboxUnread(t: Tables, c: ConvId, user: string)
    requires c < |t.conversations|
  {
    var rows := ParticipantsOf(t.participants, c, {user});
    IsUnread(t.conversations[c].lastMessageAt, if |rows| == 0 then None else rows[0].lastReadAt)
  }

  function InboxCount(t: Tables, tenant: string, user: string, n: nat): nat
    requires n <= |t.conversations|
  {
    if n == 0 then 0
    else
      InboxCount(t, tenant, user, n - 1)
      + if IsActiveInbox(t.conversations[n - 1], tenant) && InboxUnread(t, n - 1, user) then 1 else 0
  }

  function UnreadConversationCount(t: Tables, tenant: string, user: string): nat {
    if UserHasFullAccess(t, tenant, user) then InboxCount(t, tenant, user, |t.conversations|)
    else UnreadRows(CursorRows(t, tenant, {user}, |t.participants|))
  }

  // ----- Many users at once -----

  function UnreadRowsOf(rows: seq<CursorRow>, user: string): nat {
    if |rows| == 0 then 0
    else
      var r := rows[|rows| - 1];
      UnreadRowsOf(rows[..|rows| - 1], user)
      + if r.userId == user && IsUnread(r.lastMessageAt, r.lastReadAt) then 1 else 0
  }

  /** What one participant row adds to the user's count. */
  function UnreadOne(t: Tables, tenant: string, user: string, p: Participant): nat {
    if CursorWhere(t, tenant, {user}, p) && IsUnread(t.conversations[p.conversation].lastMessageAt, p.lastReadAt)
    then 1 else 0
  }

  lemma ManyStep(t: Tables, tenant: string, users: set<string>, user: string, n: nat)
    requires 0 < n <= |t.participants| && user in users
    ensures UnreadRowsOf(CursorRows(t, tenant, users, n), user)
            == UnreadRowsOf(CursorRows(t, tenant, users, n - 1), user) + UnreadOne(t, tenant, user, t.participants[n - 1])
  {
    var p := t.participants[n - 1];
    if CursorWhere(t, tenant, users, p) {
      UnreadAppendOf(CursorRows(t, tenant, users, n - 1),
                     CursorRow(p.userId.value, p.lastReadAt, t.conversations[p.conversation].lastMessageAt), user);
    }
  }

  lemma OwnStep(t: Tables, tenant: string, user: string, n: nat)
    requires 0 < n <= |t.participants|
    ensures UnreadRows(CursorRows(t, tenant, {user}, n))
            == UnreadRows(CursorRows(t, tenant, {user}, n - 1)) + UnreadOne(t, tenant, user, t.participants[n - 1])
  {
    var p := t.participants[n - 1];
    if CursorWhere(t, tenant, {user}, p) {
      UnreadAppend(CursorRows(t, tenant, {user}, n - 1),
                   CursorRow(p.userId.value, p.lastReadAt, t.conversations[p.conversation].lastMessageAt));
    }
  }

  /** Selecting the rows of many users and then one user's is selecting that user's rows. */
  lemma {:induction false} ScopedAgrees(t: Tables, tenant: string, users: set<string>, user: string, n: nat)
    requires n <= |t.participants| && user in users
    ensures UnreadRowsOf(CursorRows(t, tenant, users, n), user) == UnreadRows(CursorRows(t, tenant, {user}, n))
    decreases n
  {
    if n > 0 {
      ScopedAgrees(t, tenant, users, user, n - 1);
      ManyStep(t, tenant, users, user, n);
      OwnStep(t, tenant, user, n);
    }
  }

  lemma UnreadAppend(rows: seq<CursorRow>, row: CursorRow)
    ensures UnreadRows(rows + [row])
            == UnreadRows(rows) + if IsUnread(row.lastMessageAt, row.lastReadAt) then 1 else 0
  {
    assert (rows + [row])[..|rows|] == rows;
  }

  lemma UnreadAppendOf(rows: seq<CursorRow>, row: CursorRow, user: string)
    ensures UnreadRowsOf(rows + [row], user) == UnreadRowsOf(rows, user)
            + if row.userId == user && IsUnread(row.lastMessageAt, row.lastReadAt) then 1 else 0
  {
    assert (rows + [row])[..|rows|] == rows;
  }

  /** The cursor a by-user map holds after inserting the rows in order: the last row wins. */
  function CursorIn(rows: seq<Participant>, user: string): Option<Participant> {
    if |rows| == 0 then None
    else if rows[|rows| - 1].userId == Some(user) then Some(rows[|rows| - 1])
    else CursorIn(rows[..|rows| - 1], user)
  }

  /** With unique (conversation, user), the last of many users' rows for a user is the first of that user's own. */
  lemma {:induction false} CursorAgrees(ps: seq<Participant>, c: ConvId, users: set<string>, user: string)
    requires UniqueRows(ps) && user in users
    ensures var own := ParticipantsOf(ps, c, {user});
            |own| <= 1 && CursorIn(ParticipantsOf(ps, c, users), user) == if |own| == 0 then None else Some(own[0])
    decreases |ps|
  {
    if |ps| > 0 {
      var n := |ps| - 1;
      CursorAgrees(ps[..n], c, users, user);
      var all, own := ParticipantsOf(ps[..n], c, users), ParticipantsOf(ps[..n], c, {user});
      assert (all + [ps[n]])[..|all|] == all;
      if IsRowOf(ps[n], c, user) {
        forall i | 0 <= i < n ensures !IsRowOf(ps[i], c, user) {}
        NoneOf(ps[..n], c, user);
      }
    }
  }

  lemma {:induction false} NoneOf(ps: seq<Participant>, c: ConvId, user: string)
    requires forall i :: 0 <= i < |ps| ==> !IsRowOf(ps[i], c, user)
    ensures ParticipantsOf(ps, c, {user}) == []
    decreases |ps|
  {
    if |ps| > 0 {
      NoneOf(ps[..|ps| - 1], c, user);
    }
  }

  // ----- The batched method -----

  method UniqueNonEmpty(ids: seq<string>) returns (unique: seq<string>)
    ensures forall u :: u in unique <==> u in ids && u != ""
  {
    unique := [];
    for i := 0 to |ids|
      invariant forall u :: u in unique <==> u in ids[..i] && u != ""
    {
      if ids[i] != "" && ids[i] !in unique {
        unique := unique + [ids[i]];
      }
    }
  }

  method UnreadConversationCountsForUsers(t: Tables, tenant: string, userIds: seq<string>)
    returns (counts: map<string, nat>)
    requires UniqueRows(t.participants)
    ensures counts.Keys == set u | u in userIds && u != ""
    ensures forall u :: u in counts ==> counts[u] == UnreadConversationCount(t, tenant, u)
  {
    var unique := UniqueNonEmpty(userIds);
    counts := map[];
    for i := 0 to |unique|
      invariant counts == map u | u in unique[..i] :: 0
    {
      counts := counts[unique[i] := 0];
    }
    assert unique[..|unique|] == unique;
    var full := set u | u in unique && UserHasFullAccess(t, tenant, u);
    var scoped := set u | u in unique && u !in full;
    ghost var keys := counts.Keys;
    if scoped != {} {
      var rows := CursorRows(t, tenant, scoped, |t.participants|);
      RowsAreScoped(t, tenant, scoped, |t.participants|);
      counts := CountScoped(rows, counts);
    }
    if full != {} {
      counts := CountInboxes(t, tenant, full, counts);
    }
    forall u | u in keys ensures counts[u] == UnreadConversationCount(t, tenant, u) {
      BatchedAgrees(t, tenant, full, scoped, u);
    }
  }

  /** A user is counted by exactly one of the two queries, as the single-user count would be. */
  lemma BatchedAgrees(t: Tables, tenant: string, full: set<string>, scoped: set<string>, user: string)
    requires UserHasFullAccess(t, tenant, user) <==> user in full
    requires user in full <==> user !in scoped
    ensures UnreadConversationCount(t, tenant, user) ==
              UnreadRowsOf(CursorRows(t, tenant, scoped, |t.participants|), user)
              + if user in full then InboxCount(t, tenant, user, |t.conversations|) else 0
    ensures user in full ==> UnreadRowsOf(CursorRows(t, tenant, scoped, |t.participants|), user) == 0
  {
    if user in full {
      RowsAreScoped(t, tenant, scoped, |t.participants|);
      NoRowsOf(CursorRows(t, tenant, scoped, |t.participants|), user);
    } else {
      ScopedAgrees(t, tenant, scoped, user, |t.participants|);
    }
  }

  lemma {:induction false} RowsAreScoped(t: Tables, tenant: string, users: set<string>, n: nat)
    requires n <= |t.participants|
    ensures forall i :: 0 <= i < |CursorRows(t, tenant, users, n)| ==> CursorRows(t, tenant, users, n)[i].userId in users
    decreases n
  {
    if n > 0 {
      RowsAreScoped(t, tenant, users, n - 1);
    }
  }

  lemma {:induction false} NoRowsOf(rows: seq<CursorRow>, user: string)
    requires forall i :: 0 <= i < |rows| ==> rows[i].userId != user
    ensures UnreadRowsOf(rows, user) == 0
    decreases |rows|
  {
    if |rows| > 0 {
      NoRowsOf(rows[..|rows| - 1], user);
    }
  }

  method CountScoped(rows: seq<CursorRow>, before: map<string, nat>) returns (counts: map<string, nat>)
    requires forall i :: 0 <= i < |rows| ==> rows[i].userId in before
    ensures counts.Keys == before.Keys
    ensures forall u :: u in before ==> counts[u] == before[u] + UnreadRowsOf(rows, u)
  {
    counts := before;
    for i := 0 to |rows|
      invariant counts.Keys == before.Keys
      invariant forall u :: u in before ==> counts[u] == before[u] + UnreadRowsOf(rows[..i], u)
    {
      var row := rows[i];
      assert rows[..i + 1][..i] == rows[..i];
      if IsUnread(row.lastMessageAt, row.lastReadAt) {
        counts := counts[row.userId := counts[row.userId] + 1];
      }
    }
    assert rows[..|rows|] == rows;
  }

  /** The by-user map of one conversation's participants, filled in row order. */
  method ParticipantByUser(rows: seq<Participant>) returns (byUser: map<string, Participant>)
    requires forall i :: 0 <= i < |rows| ==> rows[i].userId.Some?
    ensures forall u :: if u in byUser then CursorIn(rows, u) == Some(byUser[u]) else CursorIn(rows, u) == None
  {
    byUser := map[];
    for i := 0 to |rows|
      invariant forall u :: if u in byUser then CursorIn(rows[..i], u) == Some(byUser[u]) else CursorIn(rows[..i], u) == None
    {
      assert rows[..i + 1][..i] == rows[..i];
      byUser := byUser[rows[i].userId.value := rows[i]];
    }
    assert rows[..|rows|] == rows;
  }

  method CountInboxes(t: Tables, tenant: string, full: set<string>, before: map<string, nat>)
    returns (counts: map<string, nat>)
    requires UniqueRows(t.participants) && full <= before.Keys
    ensures counts.Keys == before.Keys
    ensures forall u :: u in before ==>
              counts[u] == before[u] + if u in full then InboxCount(t, tenant, u, |t.conversations|) else 0
  {
    counts := before;
    for c := 0 to |t.conversations|
      invariant counts.Keys == before.Keys
      invariant forall u :: u in before ==> counts[u] == before[u] + if u in full then InboxCount(t, tenant, u, c) else 0
    {
      if IsActiveInbox(t.conversations[c], tenant) {
        var byUser := ParticipantByUser(ParticipantsOf(t.participants, c, full));
        counts := CountOneInbox(t, c, full, byUser, counts);
      }
    }
  }

  method CountOneInbox(t: Tables, c: ConvId, full: set<string>, byUser: map<string, Participant>, before: map<string, nat>)
    returns (counts: map<string, nat>)
    requires UniqueRows(t.participants) && full <= before.Keys && c < |t.conversations|
    requires var rows := ParticipantsOf(t.participants, c, full);
             forall u :: if u in byUser then CursorIn(rows, u) == Some(byUser[u]) else CursorIn(rows, u) == None
    ensures counts.Keys == before.Keys
    ensures forall u :: u in before ==>
              counts[u] == before[u] + if u in full && InboxUnread(t, c, u) then 1 else 0
  {
    counts := before;
    var last := t.conversations[c].lastMessageAt;
    var pending := full;
    while pending != {}
      invariant pending <= full && counts.Keys == before.Keys
      invariant forall u :: u in before ==>
        counts[u] == before[u] + if u in full - pending && InboxUnread(t, c, u) then 1 else 0
      decreases |pending|
    {
      var uid :| uid in pending;
      CursorAgrees(t.participants, c, full, uid);
      var unread := IsUnread(last, if uid in byUser then byUser[uid].lastReadAt else None);
      if unread {
        counts := counts[uid := counts[uid] + 1];
      }
      pending := pending - {uid};
    }
  }

  /** In every reachable state of the chat the batched counts may be taken: its participant rows are unique. */
  lemma ReachableTablesAreUnique(s: Chat, es: seq<Event>)
    requires ChatSound(s)
    ensures UniqueRows(Run(s, es).participants)
  {
    EveryRunIsSound(s, es);
  }
}
